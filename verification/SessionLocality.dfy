/** Handling one session leaves every other session alone. */
module SessionLocality {
  import opened Prelude
  import opened FileNames
  import opened Sessions
  import D = DkgStorage
  import P = PeerMapping
  import E = Ecdsa

  function Look<K, V>(m: map<K, V>, k: K): Option<V> {
    if k in m then Some(m[k]) else None
  }

  /** Everything the node holds for session x, compared between two states. */
  ghost predicate SameSession(a: State, b: State, x: SessionId) {
    && Look(a.data, x) == Look(b.data, x)
    && Look(a.stamps, x) == Look(b.stamps, x)
    && Look(a.dkg, x) == Look(b.dkg, x)
    && Look(a.signing, x) == Look(b.signing, x)
    && Look(a.buffer, x) == Look(b.buffer, x)
    && Look(a.peers.byIdentifier, x) == Look(b.peers.byIdentifier, x)
    && Look(a.peers.byIndex, x) == Look(b.peers.byIndex, x)
    && (forall t: StorageType :: Look(a.store.data, (x, t)) == Look(b.store.data, (x, t)))
    && (forall shelf: D.Shelf :: D.Get(a.store, shelf, x) == D.Get(b.store, shelf, x))
    && (forall id: Identifier ::
          && Look(a.keys, (x, Key, id)) == Look(b.keys, (x, Key, id))
          && Look(a.keys, (x, PubKey, id)) == Look(b.keys, (x, PubKey, id)))
    && (forall k: E.Kind ::
          && Look(a.ecdsa.phases, (k, x)) == Look(b.ecdsa.phases, (k, x))
          && Look(a.ecdsa.buffers, (k, x)) == Look(b.ecdsa.buffers, (k, x)))
  }

  /** Only session s may differ. */
  ghost predicate OnlyTouches(a: State, b: State, s: SessionId) {
    && a.validatorKey == b.validatorKey && a.localPeer == b.localPeer
    && a.peers.peers == b.peers.peers && a.peers.validatorIds == b.peers.validatorIds
    && forall x :: x != s ==> SameSession(a, b, x)
  }

  lemma Chained(a: State, b: State, d: State, s: SessionId)
    requires OnlyTouches(a, b, s) && OnlyTouches(b, d, s)
    ensures OnlyTouches(a, d, s)
  {
    forall x | x != s ensures SameSession(a, d, x) {
      assert SameSession(a, b, x) && SameSession(b, d, x);
    }
  }

  // ---------------------------------------------------------------- primitive changes

  lemma StatesAreLocal(st: State, s: SessionId, x: DkgState, y: SigningState)
    ensures OnlyTouches(st, SetDkg(st, s, x), s) && OnlyTouches(st, SetSigning(st, s, y), s)
  {
  }

  lemma BufferIsLocal(st: State, s: SessionId, entry: seq<(PeerId, Message)>)
    ensures OnlyTouches(st, st.(buffer := st.buffer[s := entry]), s)
  {
  }

  lemma DataIsLocal(st: State, s: SessionId, t: StorageType, blob: D.Blob)
    ensures OnlyTouches(st, StoredData(st, s, t, blob), s)
  {
  }

  lemma StoringIsLocal(st: State, shelf: D.Shelf, s: SessionId, id: Identifier, bytes: Bytes)
    ensures OnlyTouches(st, Stored(st, shelf, s, id, bytes), s)
  {
  }

  lemma PhaseIsLocal(c: Crypto, st: State, kind: E.Kind, s: SessionId)
    ensures OnlyTouches(st, WithPhase(c, st, (kind, s)), s)
  {
    EcdsaIsLocal(st, WithPhase(c, st, (kind, s)).ecdsa, s);
  }

  lemma EcdsaIsLocal(st: State, ecdsa: E.State, s: SessionId)
    requires forall slot: E.Slot :: slot.1 != s ==>
               Look(st.ecdsa.phases, slot) == Look(ecdsa.phases, slot) && Look(st.ecdsa.buffers, slot) == Look(ecdsa.buffers, slot)
    ensures OnlyTouches(st, st.(ecdsa := ecdsa), s)
  {
  }

  lemma {:induction false} ParticipantsAreLocal(p: P.Peers, s: SessionId, participants: seq<Account>, x: SessionId)
    requires P.AddParticipants(p, s, participants).Some? && x != s
    ensures var q := P.AddParticipants(p, s, participants).value;
            && q.peers == p.peers && q.validatorIds == p.validatorIds
            && Look(q.byIdentifier, x) == Look(p.byIdentifier, x) && Look(q.byIndex, x) == Look(p.byIndex, x)
  {
    if participants != [] {
      ParticipantsAreLocal(p, s, participants[..|participants| - 1], x);
    }
  }

  // ---------------------------------------------------------------- key generation

  lemma KeysAreLocal(st: State, s: SessionId, id: Identifier, minSigners: nat)
    ensures OnlyTouches(st, SetDkg(WithKeys(st, s, id, minSigners), s, KeyGenerated), s)
  {
  }

  lemma CompleteIsLocal(c: Crypto, o: P.Orders, st: State, s: SessionId)
    ensures var r := Complete(c, o, st, s); r.Returned? ==> OnlyTouches(st, r.st, s)
  {
    var r := Complete(c, o, st, s);
    if r.Returned? {
      var me := P.IdentifierOfAccount(o, st.peers, s, st.validatorKey);
      if r.st == st {
        assert OnlyTouches(st, st, s);
      } else if r.st == SetDkg(st, s, DkgFailed) {
        StatesAreLocal(st, s, DkgFailed, SignIdle);
      } else {
        KeysAreLocal(st, s, me.id, Secret(st, s, DKGRound2SecretPackage).value.minSigners);
      }
    }
  }

  lemma {:induction false} CompletionIsLocal(c: Crypto, o: P.Orders, st: State, s: SessionId, depth: nat)
    ensures var r := VerifyAndComplete(c, o, st, s, depth); r.Returned? ==> OnlyTouches(st, r.st, s)
    decreases depth, 0, 0
  {
    if depth > 0 {
      var st1 := Touched(st, s);
      var r := ReplayRound2(c, o, st1, s, Waiting(st, s), depth - 1);
      BufferIsLocal(st, s, Waiting(st, s));
      Replay2IsLocal(c, o, st1, s, Waiting(st, s), depth - 1);
      if r.Returned? {
        CompleteIsLocal(c, o, r.st, s);
        Chained(st, st1, r.st, s);
        if Complete(c, o, r.st, s).Returned? {
          Chained(st, r.st, Complete(c, o, r.st, s).st, s);
        }
      }
    }
  }

  lemma {:induction false} Replay2IsLocal(c: Crypto, o: P.Orders, st: State, s: SessionId, ms: seq<(PeerId, Message)>, depth: nat)
    ensures var r := ReplayRound2(c, o, st, s, ms, depth); r.Returned? ==> OnlyTouches(st, r.st, s)
    decreases depth, 2, |ms|
  {
    if ms != [] {
      var (sender, m) := ms[0];
      if m.DkgRound2? {
        Round2IsLocal(c, o, st, s, m.bytes, m.recipient, sender, depth);
      }
      var r := if m.DkgRound2? then HandleRound2(c, o, st, s, m.bytes, m.recipient, sender, depth) else Returned(st, None);
      if r.Returned? {
        Replay2IsLocal(c, o, r.st, s, ms[1..], depth);
        var r' := ReplayRound2(c, o, r.st, s, ms[1..], depth);
        if r'.Returned? {
          Chained(st, r.st, r'.st, s);
        }
      }
    }
  }

  lemma {:induction false} Round2IsLocal(c: Crypto, o: P.Orders, st: State, s: SessionId, bytes: Bytes, recipient: PeerId, sender: PeerId, depth: nat)
    ensures var r := HandleRound2(c, o, st, s, bytes, recipient, sender, depth); r.Returned? ==> OnlyTouches(st, r.st, s)
    decreases depth, 1, 0
  {
    assert OnlyTouches(st, st, s);
    var id := P.IdentifierOfPeer(o, st.peers, s, sender);
    if id.Found? {
      Stored2IsLocal(c, o, st, s, bytes, id.id, depth);
    }
  }

  lemma {:induction false} Stored2IsLocal(c: Crypto, o: P.Orders, st: State, s: SessionId, bytes: Bytes, id: Identifier, depth: nat)
    ensures var r := VerifyAndComplete(c, o, Stored(st, D.Round2, s, id, bytes), s, depth); r.Returned? ==> OnlyTouches(st, r.st, s)
    decreases depth, 0, 1
  {
    var st1 := Stored(st, D.Round2, s, id, bytes);
    StoringIsLocal(st, D.Round2, s, id, bytes);
    CompletionIsLocal(c, o, st1, s, depth);
    var r := VerifyAndComplete(c, o, st1, s, depth);
    if r.Returned? {
      Chained(st, st1, r.st, s);
    }
  }

  lemma Start2IsLocal(c: Crypto, o: P.Orders, st: State, s: SessionId, secret: D.Blob, packages: Packages, depth: nat)
    ensures var r := StartRound2(c, o, st, s, secret, packages, depth); r.Returned? ==> OnlyTouches(st, r.st, s)
  {
    if (secret, packages) in c.part2 {
      var st1 := SetDkg(StoredData(st, s, DKGRound2SecretPackage, secret), s, Round2Initiated);
      SecretIsLocal(st, s, DKGRound2SecretPackage, secret, Round2Initiated);
      CompletionIsLocal(c, o, st1, s, depth);
      var r := VerifyAndComplete(c, o, st1, s, depth);
      if r.Returned? {
        Chained(st, st1, r.st, s);
      }
    } else {
      StatesAreLocal(st, s, DkgFailed, SignIdle);
    }
  }

  lemma Verify1IsLocal(c: Crypto, o: P.Orders, st: State, s: SessionId, depth: nat)
    ensures var r := VerifyRound1(c, o, st, s, depth); r.Returned? ==> OnlyTouches(st, r.st, s)
  {
    var secret, packages := Secret(st, s, DKGRound1SecretPackage), D.Fetch(st.store, D.Round1, s, c.formats.round1Parses);
    if secret.Some? && packages.Some? {
      Start2IsLocal(c, o, st, s, secret.value, packages.value, depth);
    }
  }

  lemma Round1IsLocal(c: Crypto, o: P.Orders, st: State, s: SessionId, bytes: Bytes, sender: PeerId, depth: nat)
    ensures var r := HandleRound1(c, o, st, s, bytes, sender, depth); r.Returned? ==> OnlyTouches(st, r.st, s)
  {
    var id := P.IdentifierOfPeer(o, st.peers, s, sender);
    if id.Found? {
      var st1 := Stored(st, D.Round1, s, id.id, bytes);
      StoringIsLocal(st, D.Round1, s, id.id, bytes);
      Verify1IsLocal(c, o, st1, s, depth);
      var r := VerifyRound1(c, o, st1, s, depth);
      if r.Returned? {
        Chained(st, st1, r.st, s);
      }
    }
  }

  lemma {:induction false} Replay1IsLocal(c: Crypto, o: P.Orders, st: State, s: SessionId, ms: seq<(PeerId, Message)>, depth: nat)
    ensures var r := ReplayRound1(c, o, st, s, ms, depth); r.Returned? ==> OnlyTouches(st, r.st, s)
    decreases |ms|
  {
    if ms != [] {
      var (sender, m) := ms[0];
      if m.DkgRound1? {
        Round1IsLocal(c, o, st, s, m.bytes, sender, depth);
      }
      var r := if m.DkgRound1? then HandleRound1(c, o, st, s, m.bytes, sender, depth) else Returned(st, None);
      if r.Returned? {
        Replay1IsLocal(c, o, r.st, s, ms[1..], depth);
        var r' := ReplayRound1(c, o, r.st, s, ms[1..], depth);
        if r'.Returned? {
          Chained(st, r.st, r'.st, s);
        }
      }
    }
  }

  // ---------------------------------------------------------------- creating sessions

  lemma AddSessionIsLocal(st: State, now: int, s: SessionId, d: SessionData, participants: seq<Account>)
    ensures var r := AddSession(st, now, s, d, participants); r.Returned? ==> OnlyTouches(st, r.st, s)
  {
    var r := AddSession(st, now, s, d, participants);
    if r.Returned? && r.error.None? {
      ParticipantsAreLocal(st.peers, s, participants, s + 1);
      forall x | x != s ensures SameSession(st, r.st, x) {
        ParticipantsAreLocal(st.peers, s, participants, x);
      }
    }
  }

  lemma SecretIsLocal(st: State, s: SessionId, t: StorageType, blob: D.Blob, x: DkgState)
    ensures OnlyTouches(st, SetDkg(StoredData(st, s, t, blob), s, x), s)
  {
  }

  lemma CatchUpIsLocal(c: Crypto, o: P.Orders, st: State, s: SessionId, depth: nat)
    ensures var r := ReplayRound1(c, o, Touched(st, s), s, Waiting(st, s), depth); r.Returned? ==> OnlyTouches(st, r.st, s)
  {
    BufferIsLocal(st, s, Waiting(st, s));
    Replay1IsLocal(c, o, Touched(st, s), s, Waiting(st, s), depth);
    var r := ReplayRound1(c, o, Touched(st, s), s, Waiting(st, s), depth);
    if r.Returned? {
      Chained(st, Touched(st, s), r.st, s);
    }
  }

  lemma ReplayAndVerifyIsLocal(c: Crypto, o: P.Orders, st: State, st1: State, s: SessionId, depth: nat)
    requires OnlyTouches(st, st1, s)
    requires ReplayRound1(c, o, Touched(st1, s), s, Waiting(st1, s), depth).Returned?
    ensures var r := VerifyRound1(c, o, ReplayRound1(c, o, Touched(st1, s), s, Waiting(st1, s), depth).st, s, depth);
            r.Returned? ==> OnlyTouches(st, r.st, s)
  {
    CatchUpIsLocal(c, o, st1, s, depth);
    var st2 := ReplayRound1(c, o, Touched(st1, s), s, Waiting(st1, s), depth).st;
    Chained(st, st1, st2, s);
    Verify1IsLocal(c, o, st2, s, depth);
    var r := VerifyRound1(c, o, st2, s, depth);
    if r.Returned? {
      Chained(st, st2, r.st, s);
    }
  }

  lemma StartDkgIsLocal(c: Crypto, o: P.Orders, st: State, s: SessionId, t: nat, n: nat, participants: seq<Account>, depth: nat)
    ensures var r := StartDkg(c, o, st, s, t, n, participants, depth); r.Returned? ==> OnlyTouches(st, r.st, s)
  {
    var st1 := SetDkg(StoredData(st, s, DKGRound1SecretPackage, D.SecretPackage(t, n)), s, Round1Initiated);
    SecretIsLocal(st, s, DKGRound1SecretPackage, D.SecretPackage(t, n), Round1Initiated);
    if ReplayRound1(c, o, Touched(st1, s), s, Waiting(st1, s), depth).Returned? {
      ReplayAndVerifyIsLocal(c, o, st, st1, s, depth);
    }
  }

  lemma CreateDkgIsLocal(c: Crypto, o: P.Orders, st: State, now: int, s: SessionId, t: nat, n: nat, participants: seq<Account>, depth: nat)
    ensures var r := CreateDkg(c, o, st, now, s, t, n, participants, depth); r.Returned? ==> OnlyTouches(st, r.st, s)
  {
    var d := SessionData(t, n, NOBODY, "");
    AddSessionIsLocal(st, now, s, d, participants);
    var added := AddSession(st, now, s, d, participants);
    if added.Returned? && added.error.None? {
      StartDkgIsLocal(c, o, added.st, s, t, n, participants, depth);
      var r := StartDkg(c, o, added.st, s, t, n, participants, depth);
      if r.Returned? {
        Chained(st, added.st, r.st, s);
        PhaseIsLocal(c, r.st, E.Keygen, s);
        Chained(st, r.st, WithPhase(c, r.st, (E.Keygen, s)), s);
      }
    }
  }

  lemma CreateReshareIsLocal(c: Crypto, st: State, now: int, s: SessionId, t: nat, n: nat, participants: seq<Account>)
    ensures var r := CreateReshare(c, st, now, s, t, n, participants); r.Returned? ==> OnlyTouches(st, r.st, s)
  {
    var d := SessionData(t, n, NOBODY, "");
    AddSessionIsLocal(st, now, s, d, participants);
    var added := AddSession(st, now, s, d, participants);
    if added.Returned? {
      PhaseIsLocal(c, added.st, E.Reshare, s);
      Chained(st, added.st, WithPhase(c, added.st, (E.Reshare, s)), s);
    }
  }

  lemma StartSigningIsLocal(o: P.Orders, st: State, s: SessionId, participants: seq<Account>, coordinator: Account)
    ensures var r := StartSigning(o, st, s, participants, coordinator); r.Returned? ==> OnlyTouches(st, r.st, s)
  {
    var r := StartSigning(o, st, s, participants, coordinator);
    if r.Returned? && r.st != st {
      var st1 := Numbered(st, s, participants);
      assert OnlyTouches(st, st1, s);
      if r.st != st1 {
        var st2 := StoredData(st1, s, SigningNonces, D.Nonces);
        DataIsLocal(st1, s, SigningNonces, D.Nonces);
        Chained(st, st1, st2, s);
        StatesAreLocal(st2, s, Idle, r.st.signing[s]);
        Chained(st, st2, r.st, s);
      }
    }
  }

  lemma CreateSigningIsLocal(c: Crypto, o: P.Orders, st: State, now: int, s: SessionId, d: SessionData, participants: seq<Account>, offline: bool)
    ensures var r := CreateSigning(c, o, st, now, s, d, participants, offline); r.Returned? ==> OnlyTouches(st, r.st, s)
  {
    AddSessionIsLocal(st, now, s, d, participants);
    var added := AddSession(st, now, s, d, participants);
    if added.Returned? && added.error.None? {
      StartSigningIsLocal(o, added.st, s, participants, d.coordinator);
      var r := StartSigning(o, added.st, s, participants, d.coordinator);
      if r.Returned? {
        Chained(st, added.st, r.st, s);
        PhaseIsLocal(c, r.st, E.SignOnline, s);
        Chained(st, r.st, WithPhase(c, r.st, (E.SignOnline, s)), s);
      }
    }
  }

  // ---------------------------------------------------------------- signing

  lemma CommitmentIsLocal(c: Crypto, o: P.Orders, st: State, now: int, s: SessionId, bytes: Bytes, sender: PeerId)
    ensures var r := HandleCommitment(c, o, st, now, s, bytes, sender); r.Returned? ==> OnlyTouches(st, r.st, s)
  {
    var id := P.IdentifierOfPeer(o, st.peers, s, sender);
    if id.Found? {
      var st1 := Stored(st, D.Commitments, s, id.id, bytes);
      StoringIsLocal(st, D.Commitments, s, id.id, bytes);
      var commitments := D.Get(st1.store, D.Commitments, s);
      var st2 := StoredData(st1, s, SigningPackage, D.Package(commitments));
      DataIsLocal(st1, s, SigningPackage, D.Package(commitments));
      StatesAreLocal(st2, s, Idle, Sign2Completed);
      Chained(st, st1, st2, s);
      Chained(st, st2, SetSigning(st2, s, Sign2Completed), s);
    }
  }

  lemma SigningPackageIsLocal(c: Crypto, o: P.Orders, st: State, s: SessionId, bytes: Bytes)
    ensures var r := HandleSigningPackage(c, o, st, s, bytes); r.Returned? ==> OnlyTouches(st, r.st, s)
  {
    StatesAreLocal(st, s, Idle, Sign2Initiated);
    var st1 := SetSigning(st, s, Sign2Initiated);
    StatesAreLocal(st1, s, Idle, Sign2Completed);
    Chained(st, st1, SetSigning(st1, s, Sign2Completed), s);
  }

  lemma ShareIsLocal(c: Crypto, o: P.Orders, st: State, s: SessionId, bytes: Bytes, sender: PeerId)
    ensures var r := HandleShare(c, o, st, s, bytes, sender); r.Returned? ==> OnlyTouches(st, r.st, s)
  {
    var st1 := SetSigning(st, s, Sign3Initiated);
    StatesAreLocal(st, s, Idle, Sign3Initiated);
    var id := P.IdentifierOfPeer(o, st1.peers, s, sender);
    if id.Found? {
      var st2 := Stored(st1, D.Shares, s, id.id, bytes);
      StoringIsLocal(st1, D.Shares, s, id.id, bytes);
      Chained(st, st1, st2, s);
      StatesAreLocal(st2, s, Idle, SigningFailed);
      StatesAreLocal(st2, s, Idle, SignatureGenerated);
      Chained(st, st2, SetSigning(st2, s, SigningFailed), s);
      Chained(st, st2, SetSigning(st2, s, SignatureGenerated), s);
    }
  }

  // ---------------------------------------------------------------- the theorem

  lemma BufferedAfter(a: State, b: State, s: SessionId, sender: PeerId, m: Message)
    requires OnlyTouches(a, b, s)
    ensures OnlyTouches(a, Buffered(b, s, sender, m), s)
  {
    BufferIsLocal(b, s, Waiting(b, s) + [(sender, m)]);
    Chained(a, b, Buffered(b, s, sender, m), s);
  }

  lemma DkgGossipIsLocal(c: Crypto, o: P.Orders, st: State, now: int, s: SessionId, sender: PeerId, m: Message, depth: nat)
    requires m.DkgRound1? || m.DkgRound2?
    ensures var r := Gossip(c, o, st, now, s, sender, m, depth); r.Returned? ==> OnlyTouches(st, r.st, s)
  {
    if s !in st.data || TimedOut(st, s, now) {
      BufferIsLocal(st, s, Waiting(st, s) + [(sender, m)]);
    } else {
      var r := if m.DkgRound1? then HandleRound1(c, o, st, s, m.bytes, sender, depth)
               else HandleRound2(c, o, st, s, m.bytes, m.recipient, sender, depth);
      if m.DkgRound1? {
        Round1IsLocal(c, o, st, s, m.bytes, sender, depth);
      } else {
        Round2IsLocal(c, o, st, s, m.bytes, m.recipient, sender, depth);
      }
      if r.Returned? {
        BufferedAfter(st, r.st, s, sender, m);
      }
    }
  }

  lemma EcdsaGossipIsLocal(c: Crypto, st: State, s: SessionId, kind: E.Kind, m: E.Message)
    ensures var replayed := E.Replay(c.library, st.ecdsa, (kind, s)).0;
            OnlyTouches(st, st.(ecdsa := E.Handle(c.library, replayed, (kind, s), m).0), s)
    ensures OnlyTouches(st, st, s)
  {
    var replayed := E.Replay(c.library, st.ecdsa, (kind, s)).0;
    EcdsaIsLocal(st, E.Handle(c.library, replayed, (kind, s), m).0, s);
  }

  lemma GossipIsLocal(c: Crypto, o: P.Orders, st: State, now: int, s: SessionId, sender: PeerId, m: Message, depth: nat)
    ensures var r := Gossip(c, o, st, now, s, sender, m, depth); r.Returned? ==> OnlyTouches(st, r.st, s)
  {
    match m
    case DkgRound1(_) => DkgGossipIsLocal(c, o, st, now, s, sender, m, depth);
    case DkgRound2(_, _) => DkgGossipIsLocal(c, o, st, now, s, sender, m, depth);
    case SigningCommitment(bytes) => CommitmentIsLocal(c, o, st, now, s, bytes, sender);
    case SigningPackageFor(bytes) => SigningPackageIsLocal(c, o, st, s, bytes);
    case SigningShare(bytes) => ShareIsLocal(c, o, st, s, bytes, sender);
    case EcdsaMessage(kind, index, bytes) => EcdsaGossipIsLocal(c, st, s, kind, (index, bytes));
  }

  /** The session an event belongs to; the others concern the whole node. */
  function SessionOf(e: Event): Option<SessionId> {
    match e
    case GossipEvent(s, _, _) => Some(s)
    case DkgInfo(s, _, _, _) => Some(s)
    case ReshareInfo(s, _, _, _) => Some(s)
    case SigningInfo(s, _, _, _) => Some(s)
    case PhaseReady(s, _) => Some(s)
    case ValidatorIdAssigned(_, _) => None
    case PeerAnnounced(_, _) => None
    case CleanupTick => None
  }

  /** Whatever message or runtime event arrives for a session, and however it is
      handled, nothing that the node holds for any other session changes: data,
      clock, states, buffer, participants, stored packages, key files, ECDSA
      phases and ECDSA buffers. */
  lemma SessionsAreIsolated(st: State, x: Stimulus, other: SessionId)
    requires SessionOf(x.event).Some? && other != SessionOf(x.event).value
    requires Step(st, x).Returned?
    ensures SameSession(st, Step(st, x).st, other)
  {
    StepIsLocal(st, x);
  }

  lemma StepIsLocal(st: State, x: Stimulus)
    requires SessionOf(x.event).Some? && Step(st, x).Returned?
    ensures OnlyTouches(st, Step(st, x).st, SessionOf(x.event).value)
  {
    var c := x.crypto;
    match x.event
    case GossipEvent(s, sender, m) => GossipIsLocal(c, x.orders, st, x.now, s, sender, m, x.depth);
    case DkgInfo(s, t, n, participants) => CreateDkgIsLocal(c, x.orders, st, x.now, s, t, n, participants, x.depth);
    case ReshareInfo(s, t, n, participants) => CreateReshareIsLocal(c, st, x.now, s, t, n, participants);
    case SigningInfo(s, d, participants, offline) => CreateSigningIsLocal(c, x.orders, st, x.now, s, d, participants, offline);
    case PhaseReady(s, kind) => PhaseIsLocal(c, st, kind, s);
    case ValidatorIdAssigned(_, _) =>
    case PeerAnnounced(_, _) =>
    case CleanupTick =>
  }
}
