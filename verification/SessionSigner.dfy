/** The participant's side of signing: from the creation of the session to the
    answer to the coordinator's package. */
module SessionSigner {
  import opened Prelude
  import opened FileNames
  import opened SessionProgress
  import opened Sessions
  import D = DkgStorage
  import P = PeerMapping
  import E = Ecdsa

  /** Some announced peer belongs to the account. */
  ghost predicate Announced(p: P.Peers, a: Account) {
    exists peer :: peer in p.peers && p.peers[peer] == a
  }

  lemma AnnouncedIsFound(o: P.Orders, p: P.Peers, a: Account)
    requires o.Valid()
    ensures P.PeerOfAccount(o, p, a).Some? <==> Announced(p, a)
  {
    P.FirstWithFinds(o.peers(p.peers), p.peers, a);
    if peer :| peer in p.peers && p.peers[peer] == a {
      assert peer in Elems(o.peers(p.peers));
    }
  }

  // ---------------------------------------------------------------- the numbering

  /** Signing numbers the participants by position, from 1. */
  lemma {:induction false} ByPositionIs(participants: seq<Account>, id: Identifier)
    ensures id in ByPosition(participants) <==> 1 <= id <= |participants|
    ensures id in ByPosition(participants) ==> ByPosition(participants)[id] == participants[id - 1]
  {
    if participants != [] {
      ByPositionIs(participants[..|participants| - 1], id);
    }
  }

  /** So among distinct participants a node without a validator id has its position
      as identifier; a validator id takes precedence. */
  lemma IdentifierWhenSigning(o: P.Orders, st: State, s: SessionId, participants: seq<Account>, i: nat)
    requires o.Valid() && NoDup(participants) && i < |participants|
    ensures var p, a := Numbered(st, s, participants).peers, participants[i];
            P.IdentifierOfAccount(o, p, s, a) ==
              if a !in p.validatorIds then P.Found(i + 1)
              else if p.validatorIds[a] == 0 then P.Aborts
              else P.Found(if p.validatorIds[a] <= 65535 then p.validatorIds[a] else 65535)
  {
    var table: map<nat, Account> := ByPosition(participants);
    forall k: nat ensures k in table ==> 1 <= k <= |participants| && table[k] == participants[k - 1] {
      ByPositionIs(participants, k);
    }
    ByPositionIs(participants, i + 1);
    P.OnlyKeyIsFound<nat>(o.numbers(table), table, participants[i], i + 1);
  }

  // ---------------------------------------------------------------- the first round

  /** What the creation leaves: recorded data and clock, numbered participants,
      stored nonces, and round 1 completed if the coordinator's peer is known. */
  ghost predicate Committed(st: State, b: State, s: SessionId, x: Stimulus)
    requires CanSign(st, s, x)
  {
    && b.validatorKey == st.validatorKey && b.keys == st.keys
    && s in b.data && b.data[s] == x.event.d && s in b.stamps && b.stamps[s] == x.now
    && b.peers == Numbered(Added(st, x.now, s, x.event.d, x.event.participants), s, x.event.participants).peers
    && (s, SigningNonces) in b.store.data && b.store.data[(s, SigningNonces)] == D.Nonces
    && s in b.signing && b.signing[s] == if Announced(st.peers, x.event.d.coordinator) then Sign1Completed else Sign1Initiated
  }

  lemma CreationCommits(st: State, s: SessionId, x: Stimulus)
    requires CanSign(st, s, x) && x.orders.Valid()
    requires var mine := LastPosition(x.event.participants, st.validatorKey);
             mine.Some? && (s, Key, mine.value + 1) in st.keys && st.keys[(s, Key, mine.value + 1)].KeyPackage?
    ensures var r := Step(st, x); r.Returned? && r.error.None? && Committed(st, r.st, s, x)
  {
    var d, participants := x.event.d, x.event.participants;
    SigningStepIs(st, s, x);
    CreateSigningStarts(x.crypto, x.orders, st, x.now, s, d, participants, x.event.offline);
    P.CreationSucceedsIff(st.peers, s, participants);
    StartCommits(x.orders, st, x.now, s, d, participants);
    AnnouncedIsFound(x.orders, st.peers, d.coordinator);
    var r := StartSigning(x.orders, Added(st, x.now, s, d, participants), s, participants, d.coordinator);
    StartedIsCommitted(st, s, x, r.st);
    PhaseLeavesCommitted(st, s, x, r.st);
  }

  lemma StartedIsCommitted(st: State, s: SessionId, x: Stimulus, b: State)
    requires CanSign(st, s, x)
    requires var state := if Announced(st.peers, x.event.d.coordinator) then Sign1Completed else Sign1Initiated;
             var numbered := Numbered(Added(st, x.now, s, x.event.d, x.event.participants), s, x.event.participants);
             b == SetSigning(StoredData(numbered, s, SigningNonces, D.Nonces), s, state)
    ensures Committed(st, b, s, x)
  {
  }

  lemma PhaseLeavesCommitted(st: State, s: SessionId, x: Stimulus, b: State)
    requires CanSign(st, s, x) && Committed(st, b, s, x)
    ensures Committed(st, WithPhase(x.crypto, b, (E.SignOnline, s)), s, x)
  {
  }

  lemma StartCommits(o: P.Orders, st: State, now: int, s: SessionId, d: SessionData, participants: seq<Account>)
    requires P.AddParticipants(st.peers, s, participants).Some?
    requires P.AddParticipants(st.peers, s, participants).value.peers == st.peers.peers
    requires var mine := LastPosition(participants, st.validatorKey);
             mine.Some? && (s, Key, mine.value + 1) in st.keys && st.keys[(s, Key, mine.value + 1)].KeyPackage?
    ensures var b := Numbered(Added(st, now, s, d, participants), s, participants);
            StartSigning(o, Added(st, now, s, d, participants), s, participants, d.coordinator) ==
              Returned(SetSigning(StoredData(b, s, SigningNonces, D.Nonces), s,
                         if P.PeerOfAccount(o, st.peers, d.coordinator).Some? then Sign1Completed else Sign1Initiated), None)
  {
  }

  // ---------------------------------------------------------------- the second round

  /** A node that has its key package and nonces answers a readable package of at
      least `min` commitments; round 2 is completed for it if and only if it can
      send the answer, and otherwise only begun. A smaller package is not answered. */
  lemma PackageIsAnswered(c: Crypto, o: P.Orders, st: State, s: SessionId, bytes: Bytes, me: Identifier, min: nat)
    requires o.Valid() && P.IdentifierOfAccount(o, st.peers, s, st.validatorKey) == P.Found(me)
    requires (s, Key, me) in st.keys && st.keys[(s, Key, me)] == D.KeyPackage(min)
    requires (s, SigningNonces) in st.store.data && s in st.data && bytes in c.formats.packageSigners
    requires c.formats.packageSigners[bytes] >= min ==> (bytes, D.KeyPackage(min)) in c.signs
    ensures HandleSigningPackage(c, o, st, s, bytes) == Returned(SetSigning(st, s,
              if c.formats.packageSigners[bytes] >= min && Announced(st.peers, st.data[s].coordinator)
              then Sign2Completed else Sign2Initiated), None)
  {
    AnnouncedIsFound(o, st.peers, st.data[s].coordinator);
    assert st.signing[s := Sign2Initiated][s := Sign2Completed] == st.signing[s := Sign2Completed];
  }

  /** The handler panics exactly when the identifier lookup does, when the key file
      is missing or unreadable, or when a package that is large enough cannot be
      signed. */
  lemma PackagePanicsIff(c: Crypto, o: P.Orders, st: State, s: SessionId, bytes: Bytes)
    requires s in st.data
    ensures var r, me := HandleSigningPackage(c, o, st, s, bytes), P.IdentifierOfAccount(o, st.peers, s, st.validatorKey);
            r == Aborted <==>
              && bytes in c.formats.packageSigners
              && (me.Aborts? ||
                  (me.Found? && ((s, Key, me.id) !in st.keys || !st.keys[(s, Key, me.id)].KeyPackage? ||
                                 (c.formats.packageSigners[bytes] >= st.keys[(s, Key, me.id)].minSigners &&
                                  ((s, SigningNonces) !in st.store.data || (bytes, st.keys[(s, Key, me.id)]) !in c.signs)))))
  {
  }

  /** An unreadable package, or one for a node without an identifier, begins the
      second round and goes no further. */
  lemma PackageIsRefused(c: Crypto, o: P.Orders, st: State, s: SessionId, bytes: Bytes)
    ensures var r := HandleSigningPackage(c, o, st, s, bytes);
            && (bytes !in c.formats.packageSigners ==> r == Returned(SetSigning(st, s, Sign2Initiated), Some(DeserializationError)))
            && (bytes in c.formats.packageSigners && P.IdentifierOfAccount(o, st.peers, s, st.validatorKey).Missing? ==>
                  r == Returned(SetSigning(st, s, Sign2Initiated), Some(IdentifierNotFound)))
  {
  }

  ghost predicate IsPackage(s: SessionId, y: Stimulus) {
    y.event.GossipEvent? && y.event.s == s && y.event.message.SigningPackageFor? && y.event.message.bytes in y.crypto.formats.packageSigners
  }

  lemma PackageIsHandled(b: State, s: SessionId, y: Stimulus)
    requires IsPackage(s, y) && s in b.data && !TimedOut(b, s, y.now)
    ensures Step(b, y) == HandleSigningPackage(y.crypto, y.orders, b, s, y.event.message.bytes)
  {
  }

  /** A participant from the creation of the session to its answer: with its key
      file under its position, and a key package for `min` signers under the
      identifier `me` that it has then, the package in time leads to a completed
      second round if and only if it has enough commitments and the coordinator's
      peer is known. */
  lemma ParticipantAnswers(st: State, s: SessionId, x: Stimulus, y: Stimulus, me: Identifier, min: nat)
    requires CanSign(st, s, x) && x.orders.Valid() && y.orders.Valid()
    requires var mine := LastPosition(x.event.participants, st.validatorKey);
             mine.Some? && (s, Key, mine.value + 1) in st.keys && st.keys[(s, Key, mine.value + 1)].KeyPackage?
    requires var p := Numbered(Added(st, x.now, s, x.event.d, x.event.participants), s, x.event.participants).peers;
             P.IdentifierOfAccount(y.orders, p, s, st.validatorKey) == P.Found(me)
    requires (s, Key, me) in st.keys && st.keys[(s, Key, me)] == D.KeyPackage(min)
    requires IsPackage(s, y) && y.now - x.now <= SESSION_TIMEOUT
    requires y.crypto.formats.packageSigners[y.event.message.bytes] >= min ==> (y.event.message.bytes, D.KeyPackage(min)) in y.crypto.signs
    ensures var end := Run(st, [x, y]);
            && end.Some? && s in end.value.signing
            && end.value.signing[s] ==
                 (if y.crypto.formats.packageSigners[y.event.message.bytes] >= min && Announced(st.peers, x.event.d.coordinator)
                  then Sign2Completed else Sign2Initiated)
  {
    CreationCommits(st, s, x);
    var b := Step(st, x).st;
    RunNext(st, [x], st);
    PackageIsHandled(b, s, y);
    P.CreationSucceedsIff(st.peers, s, x.event.participants);
    PackageIsAnswered(y.crypto, y.orders, b, s, y.event.message.bytes, me, min);
    assert [x] + [y] == [x, y];
    RunAppend(st, [x], y, b);
  }
}
