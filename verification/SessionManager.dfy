/** The session manager as the program has it: an object whose handlers update
    mutex-guarded maps in place. Every handler is proved to do exactly what the
    corresponding function of `Sessions` says. */
module SessionManagement {
  import opened Prelude
  import opened FileNames
  import opened Sessions
  import D = DkgStorage
  import P = PeerMapping
  import E = Ecdsa

  /** How a handler ended. */
  datatype Ran = Done(error: Option<Error>) | Dead | Deep

  ghost predicate Agrees(r: Ran, after: State, expected: Outcome) {
    match expected
    case Returned(st, error) => r == Done(error) && after == st
    case Aborted => r == Dead
    case TooDeep => r == Deep
  }

  class SessionManager {
    const validatorKey: Account
    const localPeer: PeerId
    const storage: D.MemoryStorage
    const keyStorage: D.FileStorage
    const peerMapper: P.PeerMapper
    const ecdsaManager: E.Manager
    var sessionsData: map<SessionId, SessionData>
    var sessionTimestamps: map<SessionId, int>
    var dkgStates: map<SessionId, DkgState>
    var signingStates: map<SessionId, SigningState>
    var buffer: map<SessionId, seq<(PeerId, Message)>>

    ghost predicate Valid()
      reads this, storage, keyStorage
    {
      storage.Valid() && keyStorage.Valid()
    }

    ghost function View(): State
      reads this, storage, keyStorage, peerMapper, ecdsaManager
    {
      State(validatorKey, localPeer, sessionsData, sessionTimestamps, dkgStates, signingStates, buffer,
            storage.view, keyStorage.view, peerMapper.View(), ecdsaManager.View())
    }

    constructor (validatorKey: Account, localPeer: PeerId, digest: Identifier -> string)
      requires D.Injective(digest)
      ensures Valid() && View() == Initial(validatorKey, localPeer)
      ensures fresh(storage) && fresh(keyStorage) && fresh(peerMapper) && fresh(ecdsaManager)
    {
      this.validatorKey, this.localPeer := validatorKey, localPeer;
      storage := new D.MemoryStorage();
      keyStorage := new D.FileStorage(digest);
      peerMapper := new P.PeerMapper();
      ecdsaManager := new E.Manager();
      sessionsData, sessionTimestamps, dkgStates, signingStates, buffer := map[], map[], map[], map[], map[];
    }

    // -------------------------------------------------------------- key generation

    method ReadSecret(s: SessionId, t: StorageType) returns (secret: Option<D.Blob>)
      requires Valid()
      ensures secret == Secret(View(), s, t)
    {
      secret := if (s, t) in storage.data && storage.data[(s, t)].SecretPackage? then Some(storage.data[(s, t)]) else None;
    }

    /** The part of `dkg_verify_and_complete` after the replay. */
    method TryToComplete(c: Crypto, o: P.Orders, s: SessionId) returns (r: Ran)
      requires Valid()
      modifies this`dkgStates, keyStorage
      ensures Valid() && Agrees(r, View(), Complete(c, o, old(View()), s))
    {
      var secret := ReadSecret(s, DKGRound2SecretPackage);
      if secret.None? {
        return Done(Some(Round2SecretPackageNotYetAvailable));
      }
      var round1 := storage.FetchFor(D.Round1, s, c.formats.round1Parses);
      var round2 := storage.FetchFor(D.Round2, s, c.formats.round2Parses);
      if round1.None? || round2.None? {
        return Dead;
      }
      if |round2.value| >= secret.value.maxSigners - 1 {
        if (secret.value, round1.value, round2.value) in c.part3 {
          var me := peerMapper.GetIdentifierFromAccount(o, s, validatorKey);
          if me.Aborts? {
            return Dead;
          }
          if me.Missing? {
            return Done(Some(IdentifierNotFound));
          }
          WriteKeys(s, me.id, secret.value.minSigners);
          dkgStates := dkgStates[s := KeyGenerated];
        } else {
          dkgStates := dkgStates[s := DkgFailed];
        }
      }
      r := Done(None);
    }

    method WriteKeys(s: SessionId, me: Identifier, minSigners: nat)
      requires Valid()
      modifies keyStorage
      ensures Valid() && View() == WithKeys(old(View()), s, me, minSigners)
    {
      keyStorage.StoreFile((s, PubKey, me), D.PublicKeys);
      keyStorage.StoreFile((s, Key, me), D.KeyPackage(minSigners));
    }

    method DkgVerifyAndComplete(c: Crypto, o: P.Orders, s: SessionId, depth: nat) returns (r: Ran)
      requires Valid()
      modifies this`dkgStates, this`buffer, storage, keyStorage
      ensures Valid() && Agrees(r, View(), VerifyAndComplete(c, o, old(View()), s, depth))
      decreases depth, 0
    {
      if depth == 0 {
        return Deep;
      }
      var messages := if s in buffer then buffer[s] else [];
      buffer := buffer[s := messages];
      r := DkgProcessBufferForRound2(c, o, s, messages, depth - 1);
      if r.Done? {
        r := TryToComplete(c, o, s);
      }
    }

    method DkgProcessBufferForRound2(c: Crypto, o: P.Orders, s: SessionId, messages: seq<(PeerId, Message)>, depth: nat) returns (r: Ran)
      requires Valid()
      modifies this`dkgStates, this`buffer, storage, keyStorage
      ensures Valid() && Agrees(r, View(), ReplayRound2(c, o, old(View()), s, messages, depth))
      decreases depth, 2
    {
      for i := 0 to |messages|
        invariant Valid()
        invariant ReplayRound2(c, o, old(View()), s, messages, depth) == ReplayRound2(c, o, View(), s, messages[i..], depth)
      {
        var (sender, m) := messages[i];
        assert messages[i..][0] == messages[i] && messages[i..][1..] == messages[i + 1..];
        if m.DkgRound2? {
          r := DkgHandleRound2Message(c, o, s, m.bytes, m.recipient, sender, depth);
          if !r.Done? {
            return;
          }
        }
      }
      r := Done(None);
    }

    method DkgHandleRound2Message(c: Crypto, o: P.Orders, s: SessionId, bytes: Bytes, recipient: PeerId, sender: PeerId, depth: nat) returns (r: Ran)
      requires Valid()
      modifies this`dkgStates, this`buffer, storage, keyStorage
      ensures Valid() && Agrees(r, View(), HandleRound2(c, o, old(View()), s, bytes, recipient, sender, depth))
      decreases depth, 1
    {
      var current := if s in dkgStates then dkgStates[s] else Idle;
      if current.Rank() < Round2Initiated.Rank() {
        return Done(Some(Round2SecretPackageNotYetAvailable));
      }
      if localPeer != recipient {
        return Done(None);
      }
      var id := peerMapper.GetIdentifierFromPeer(o, s, sender);
      if id.Aborts? {
        return Dead;
      }
      if id.Missing? {
        return Done(Some(IdentifierNotFound));
      }
      if bytes !in c.formats.round2Parses {
        return Done(Some(DeserializationError));
      }
      storage.StoreFor(D.Round2, s, id.id, bytes);
      r := DkgVerifyAndComplete(c, o, s, depth);
      if r.Done? {
        r := Done(None);
      }
    }

    method DkgVerifyAndStartRound2(c: Crypto, o: P.Orders, s: SessionId, secret: D.Blob, packages: Packages, depth: nat) returns (r: Ran)
      requires Valid()
      modifies this`dkgStates, this`buffer, storage, keyStorage
      ensures Valid() && Agrees(r, View(), StartRound2(c, o, old(View()), s, secret, packages, depth))
    {
      if (secret, packages) !in c.part2 {
        dkgStates := dkgStates[s := DkgFailed];
        return Done(None);
      }
      dkgStates := dkgStates[s := Round1Completed];
      storage.StoreData(s, DKGRound2SecretPackage, secret);
      dkgStates := dkgStates[s := Round2Initiated];
      assert dkgStates == old(dkgStates)[s := Round2Initiated];
      r := DkgVerifyAndComplete(c, o, s, depth);
      if r.Done? {
        r := Done(None);
      }
    }

    method DkgVerificationToCompleteRound1(c: Crypto, o: P.Orders, s: SessionId, depth: nat) returns (r: Ran)
      requires Valid()
      modifies this`dkgStates, this`buffer, storage, keyStorage
      ensures Valid() && Agrees(r, View(), VerifyRound1(c, o, old(View()), s, depth))
    {
      var secret := ReadSecret(s, DKGRound1SecretPackage);
      if secret.None? {
        return Done(None);
      }
      var packages := storage.FetchFor(D.Round1, s, c.formats.round1Parses);
      if packages.None? {
        return Dead;
      }
      r := Done(None);
      if |packages.value| >= secret.value.maxSigners - 1 {
        r := DkgVerifyAndStartRound2(c, o, s, secret.value, packages.value, depth);
      }
    }

    method DkgHandleRound1Message(c: Crypto, o: P.Orders, s: SessionId, bytes: Bytes, sender: PeerId, depth: nat) returns (r: Ran)
      requires Valid()
      modifies this`dkgStates, this`buffer, storage, keyStorage
      ensures Valid() && Agrees(r, View(), HandleRound1(c, o, old(View()), s, bytes, sender, depth))
    {
      var current := if s in dkgStates then dkgStates[s] else Idle;
      var id := peerMapper.GetIdentifierFromPeer(o, s, sender);
      if id.Aborts? {
        return Dead;
      }
      if id.Missing? {
        return Done(Some(IdentifierNotFound));
      }
      storage.StoreFor(D.Round1, s, id.id, bytes);
      if current.Rank() < Round1Initiated.Rank() {
        return Done(Some(SessionNotYetInitiated));
      }
      r := DkgVerificationToCompleteRound1(c, o, s, depth);
    }

    method DkgProcessBufferForRound1(c: Crypto, o: P.Orders, s: SessionId, messages: seq<(PeerId, Message)>, depth: nat) returns (r: Ran)
      requires Valid()
      modifies this`dkgStates, this`buffer, storage, keyStorage
      ensures Valid() && Agrees(r, View(), ReplayRound1(c, o, old(View()), s, messages, depth))
    {
      for i := 0 to |messages|
        invariant Valid()
        invariant ReplayRound1(c, o, old(View()), s, messages, depth) == ReplayRound1(c, o, View(), s, messages[i..], depth)
      {
        var (sender, m) := messages[i];
        assert messages[i..][0] == messages[i] && messages[i..][1..] == messages[i + 1..];
        if m.DkgRound1? {
          r := DkgHandleRound1Message(c, o, s, m.bytes, sender, depth);
          if !r.Done? {
            return;
          }
        }
      }
      r := Done(None);
    }

    method DkgHandleSessionCreated(c: Crypto, o: P.Orders, s: SessionId, t: nat, n: nat, participants: seq<Account>, depth: nat) returns (r: Ran)
      requires Valid()
      modifies this`dkgStates, this`buffer, storage, keyStorage
      ensures Valid() && Agrees(r, View(), StartDkg(c, o, old(View()), s, t, n, participants, depth))
    {
      if validatorKey !in participants {
        return Done(Some(NotAuthorized));
      }
      if (t, n) !in c.part1 {
        return Done(Some(Round1GenerationFailed));
      }
      storage.StoreData(s, DKGRound1SecretPackage, D.SecretPackage(t, n));
      dkgStates := dkgStates[s := Round1Initiated];
      var messages := if s in buffer then buffer[s] else [];
      buffer := buffer[s := messages];
      r := DkgProcessBufferForRound1(c, o, s, messages, depth);
      if r.Done? {
        r := DkgVerificationToCompleteRound1(c, o, s, depth);
      }
    }

    // -------------------------------------------------------------- creating sessions

    method AddSessionData(now: int, s: SessionId, d: SessionData, participants: seq<Account>) returns (r: Ran)
      requires Valid()
      modifies this`sessionsData, this`sessionTimestamps, peerMapper
      ensures Valid() && Agrees(r, View(), AddSession(old(View()), now, s, d, participants))
    {
      if d.t == 0 || d.n == 0 || d.t > d.n {
        return Done(Some(BadParameters));
      }
      if |participants| != d.n {
        return Done(Some(BadParameters));
      }
      sessionsData := sessionsData[s := d];
      var ok := peerMapper.CreateSession(s, participants);
      if !ok {
        return Dead;
      }
      sessionTimestamps := sessionTimestamps[s := now];
      r := Done(None);
    }

    method AddAndInitializeDkgSession(c: Crypto, o: P.Orders, now: int, s: SessionId, t: nat, n: nat, participants: seq<Account>, depth: nat) returns (r: Ran)
      requires Valid()
      modifies this, storage, keyStorage, peerMapper, ecdsaManager
      ensures Valid() && Agrees(r, View(), CreateDkg(c, o, old(View()), now, s, t, n, participants, depth))
    {
      r := AddSessionData(now, s, SessionData(t, n, NOBODY, ""), participants);
      if r != Done(None) {
        return;
      }
      r := DkgHandleSessionCreated(c, o, s, t, n, participants, depth);
      if r != Done(None) {
        return;
      }
      var _ := ecdsaManager.AddPhase((E.Keygen, s), (E.Keygen, s) in c.createsPhase);
    }

    method AddAndInitializeReshareSession(c: Crypto, now: int, s: SessionId, t: nat, n: nat, participants: seq<Account>) returns (r: Ran)
      requires Valid()
      modifies this, peerMapper, ecdsaManager
      ensures Valid() && Agrees(r, View(), CreateReshare(c, old(View()), now, s, t, n, participants))
    {
      r := AddSessionData(now, s, SessionData(t, n, NOBODY, ""), participants);
      if r == Done(None) && validatorKey in participants {
        var _ := ecdsaManager.AddPhase((E.Reshare, s), (E.Reshare, s) in c.createsPhase);
      }
    }

    /** Numbers the participants from 1 and looks for this node among them. */
    method Enumerate(participants: seq<Account>) returns (table: map<Identifier, Account>, mine: Option<nat>)
      ensures table == ByPosition(participants) && mine == LastPosition(participants, validatorKey)
    {
      table, mine := map[], None;
      for i := 0 to |participants|
        invariant table == ByPosition(participants[..i]) && mine == LastPosition(participants[..i], validatorKey)
      {
        assert participants[..i + 1][..i] == participants[..i];
        table := table[i + 1 := participants[i]];
        if participants[i] == validatorKey {
          mine := Some(i);
        }
      }
      assert participants[..|participants|] == participants;
    }

    method SigningHandleSessionCreated(o: P.Orders, s: SessionId, participants: seq<Account>, coordinator: Account) returns (r: Ran)
      requires Valid()
      modifies this`signingStates, storage, peerMapper
      ensures Valid() && Agrees(r, View(), StartSigning(o, old(View()), s, participants, coordinator))
    {
      var table, mine := Enumerate(participants);
      if mine.None? {
        return Done(None);
      }
      peerMapper.SetParticipants(s, table);
      r := StartFirstRound(o, s, mine.value + 1, coordinator);
    }

    /** The part of `signing_handle_session_created` after the numbering. */
    method StartFirstRound(o: P.Orders, s: SessionId, mine: Identifier, coordinator: Account) returns (r: Ran)
      requires Valid()
      modifies this`signingStates, storage
      ensures Valid() && Agrees(r, View(), Commit(o, old(View()), s, mine, coordinator))
    {
      r := Done(None);
      var key := keyStorage.ReadFile((s, Key, mine));
      if key.None? {
        return Dead;
      }
      if key.value.KeyPackage? {
        SendCommitment(o, s, coordinator);
      }
    }

    method SendCommitment(o: P.Orders, s: SessionId, coordinator: Account)
      requires Valid()
      modifies this`signingStates, storage
      ensures Valid()
      ensures View() == SetSigning(StoredData(old(View()), s, SigningNonces, D.Nonces), s,
                                   if P.PeerOfAccount(o, old(View()).peers, coordinator).Some? then Sign1Completed else Sign1Initiated)
    {
      storage.StoreData(s, SigningNonces, D.Nonces);
      signingStates := signingStates[s := Sign1Initiated];
      var peer := peerMapper.FindPeer(o, coordinator);
      if peer.Some? {
        signingStates := signingStates[s := Sign1Completed];
        assert signingStates == old(signingStates)[s := Sign1Completed];
      }
    }

    method AddAndInitializeSigningSession(c: Crypto, o: P.Orders, now: int, s: SessionId, d: SessionData, participants: seq<Account>, offline: bool) returns (r: Ran)
      requires Valid()
      modifies this, storage, peerMapper, ecdsaManager
      ensures Valid() && Agrees(r, View(), CreateSigning(c, o, old(View()), now, s, d, participants, offline))
    {
      r := AddSessionData(now, s, d, participants);
      if r != Done(None) {
        return;
      }
      r := SigningHandleSessionCreated(o, s, participants, d.coordinator);
      if r.Done? && validatorKey in participants && offline {
        var _ := ecdsaManager.AddPhase((E.SignOnline, s), (E.SignOnline, s) in c.createsPhase);
        r := Done(None);
      }
    }

    // -------------------------------------------------------------- signing

    method SigningVerificationToCompleteRound1(c: Crypto, s: SessionId) returns (r: Ran)
      requires Valid()
      modifies this`signingStates, storage
      ensures Valid() && Agrees(r, View(), VerifyCommitments(c, old(View()), s))
    {
      var commitments := storage.FetchFor(D.Commitments, s, c.formats.commitmentParses);
      if commitments.None? {
        return Dead;
      }
      if s !in sessionsData {
        return Done(None);
      }
      if |commitments.value| > U16_MAX {
        return Dead;
      }
      if |commitments.value| < sessionsData[s].t {
        return Done(None);
      }
      signingStates := signingStates[s := Sign2Initiated];
      storage.StoreData(s, SigningPackage, D.Package(commitments.value));
      signingStates := signingStates[s := Sign2Completed];
      assert signingStates == old(signingStates)[s := Sign2Completed];
      r := Done(None);
    }

    method SigningHandleCommitment(c: Crypto, o: P.Orders, now: int, s: SessionId, bytes: Bytes, sender: PeerId) returns (r: Ran)
      requires Valid()
      modifies this`signingStates, storage
      ensures Valid() && Agrees(r, View(), HandleCommitment(c, o, old(View()), now, s, bytes, sender))
    {
      var id := peerMapper.GetIdentifierFromPeer(o, s, sender);
      if id.Aborts? {
        return Dead;
      }
      if id.Missing? {
        return Done(Some(IdentifierNotFound));
      }
      storage.StoreFor(D.Commitments, s, id.id, bytes);
      if s in signingStates && signingStates[s].Rank() >= Sign2Completed.Rank() {
        return Done(None);
      }
      r := Done(None);
      var timedOut := s in sessionTimestamps && now - sessionTimestamps[s] > SESSION_TIMEOUT;
      if !timedOut && s in sessionsData && sessionsData[s].coordinator == validatorKey {
        r := SigningVerificationToCompleteRound1(c, s);
      }
    }

    method SigningHandleSigningPackage(c: Crypto, o: P.Orders, s: SessionId, bytes: Bytes) returns (r: Ran)
      requires Valid()
      modifies this`signingStates
      ensures Valid() && Agrees(r, View(), HandleSigningPackage(c, o, old(View()), s, bytes))
    {
      signingStates := signingStates[s := Sign2Initiated];
      if bytes !in c.formats.packageSigners {
        return Done(Some(DeserializationError));
      }
      var me := peerMapper.GetIdentifierFromAccount(o, s, validatorKey);
      if me.Aborts? {
        return Dead;
      }
      if me.Missing? {
        return Done(Some(IdentifierNotFound));
      }
      var key := keyStorage.ReadFile((s, Key, me.id));
      if key.None? || !key.value.KeyPackage? {
        return Dead;
      }
      if c.formats.packageSigners[bytes] < key.value.minSigners {
        return Done(None);
      }
      if (s, SigningNonces) !in storage.data || (bytes, key.value) !in c.signs || s !in sessionsData {
        return Dead;
      }
      var peer := peerMapper.FindPeer(o, sessionsData[s].coordinator);
      if peer.Some? {
        signingStates := signingStates[s := Sign2Completed];
      }
      r := Done(None);
    }

    method SigningHandleSignatureShare(c: Crypto, o: P.Orders, s: SessionId, bytes: Bytes, sender: PeerId) returns (r: Ran)
      requires Valid()
      modifies this`signingStates, storage
      ensures Valid() && Agrees(r, View(), HandleShare(c, o, old(View()), s, bytes, sender))
    {
      signingStates := signingStates[s := Sign3Initiated];
      if bytes !in c.formats.shareParses {
        return Done(Some(DeserializationError));
      }
      var id := peerMapper.GetIdentifierFromPeer(o, s, sender);
      if id.Aborts? {
        return Dead;
      }
      if id.Missing? {
        return Done(Some(IdentifierNotFound));
      }
      storage.StoreFor(D.Shares, s, id.id, bytes);
      var shares := storage.FetchFor(D.Shares, s, c.formats.shareParses);
      if shares.None? || s !in sessionsData {
        return Dead;
      }
      if |shares.value| < sessionsData[s].t {
        return Done(Some(SignatureNotReadyYet));
      }
      r := AggregateShares(c, o, s, shares.value);
    }

    method AggregateShares(c: Crypto, o: P.Orders, s: SessionId, shares: Packages) returns (r: Ran)
      requires Valid()
      modifies this`signingStates
      ensures Valid() && Agrees(r, View(), Aggregate(c, o, old(View()), s, shares))
    {
      var me := peerMapper.GetIdentifierFromAccount(o, s, validatorKey);
      if me.Aborts? {
        return Dead;
      }
      if me.Missing? {
        return Done(Some(IdentifierNotFound));
      }
      var pubkeys := keyStorage.ReadFile((s, PubKey, me.id));
      var k := (s, SigningPackage);
      if pubkeys.None? || k !in storage.data || !storage.data[k].Package? {
        return Dead;
      }
      if (storage.data[k].commitments, shares) !in c.aggregates {
        signingStates := signingStates[s := SigningFailed];
        return Done(Some(SignatureAggregationError));
      }
      signingStates := signingStates[s := SignatureGenerated];
      r := Done(None);
    }

    // -------------------------------------------------------------- events

    method HandleGossipMessage(c: Crypto, o: P.Orders, now: int, s: SessionId, sender: PeerId, m: Message, depth: nat) returns (r: Ran)
      requires Valid()
      modifies this, storage, keyStorage, ecdsaManager
      ensures Valid() && Agrees(r, View(), Gossip(c, o, old(View()), now, s, sender, m, depth))
    {
      r := Done(None);
      if s !in sessionsData {
        if m.DkgRound1? {
          PushToBuffer(s, sender, m);
        }
        return;
      }
      if s in sessionTimestamps && now - sessionTimestamps[s] > SESSION_TIMEOUT {
        return;
      }
      match m
      case DkgRound1(bytes) =>
        r := DkgHandleRound1Message(c, o, s, bytes, sender, depth);
        if r == Done(Some(IdentifierNotFound)) {
          PushToBuffer(s, sender, m);
          r := Done(None);
        }
      case DkgRound2(bytes, recipient) =>
        r := DkgHandleRound2Message(c, o, s, bytes, recipient, sender, depth);
        if r == Done(Some(Round2SecretPackageNotYetAvailable)) {
          PushToBuffer(s, sender, m);
          r := Done(None);
        }
      case SigningCommitment(bytes) => r := SigningHandleCommitment(c, o, now, s, bytes, sender);
      case SigningPackageFor(bytes) => r := SigningHandleSigningPackage(c, o, s, bytes);
      case SigningShare(bytes) => r := SigningHandleSignatureShare(c, o, s, bytes, sender);
      case EcdsaMessage(kind, index, bytes) => HandleEcdsaMessage(c, o, s, kind, (index, bytes));
    }

    method HandleEcdsaMessage(c: Crypto, o: P.Orders, s: SessionId, kind: E.Kind, m: E.Message)
      requires Valid()
      modifies ecdsaManager
      ensures Valid() && View() == GossipEcdsa(c, o, old(View()), s, kind, m)
    {
      var mine := peerMapper.GetIndexFromPeer(o, s, localPeer);
      if mine.Some? && kind != E.Reshare {
        var _ := ecdsaManager.HandleBuffer(c.library, (kind, s));
        var _ := ecdsaManager.HandleMessage(c.library, (kind, s), m);
      }
    }

    method PushToBuffer(s: SessionId, sender: PeerId, m: Message)
      modifies this`buffer
      ensures View() == Buffered(old(View()), s, sender, m)
    {
      buffer := buffer[s := (if s in buffer then buffer[s] else []) + [(sender, m)]];
    }

    method CleanupExpiredSessions(now: int)
      requires Valid()
      modifies this, peerMapper
      ensures Valid() && View() == Cleanup(old(View()), now)
    {
      var expired := set s | s in sessionTimestamps && now - sessionTimestamps[s] > SESSION_TIMEOUT;
      var todo := expired;
      while todo != {}
        invariant Valid() && todo <= expired
        invariant View() == Forgotten(old(View()), expired - todo)
        decreases todo
      {
        var s :| s in todo;
        Forget(s);
        ForgottenNext(old(View()), expired - todo, s);
        assert expired - (todo - {s}) == expired - todo + {s};
        todo := todo - {s};
      }
      assert expired - todo == expired;
    }

    method Forget(s: SessionId)
      requires Valid()
      modifies this, peerMapper
      ensures Valid() && View() == Forgotten(old(View()), {s})
    {
      sessionsData := sessionsData - {s};
      peerMapper.RemoveParticipants(s);
      dkgStates := dkgStates - {s};
      signingStates := signingStates - {s};
      sessionTimestamps := sessionTimestamps - {s};
      buffer := buffer - {s};
    }
  }

  lemma ForgottenNext(st: State, gone: set<SessionId>, s: SessionId)
    ensures Forgotten(Forgotten(st, gone), {s}) == Forgotten(st, gone + {s})
  {
    assert st.data - gone - {s} == st.data - (gone + {s});
    assert st.dkg - gone - {s} == st.dkg - (gone + {s});
    assert st.signing - gone - {s} == st.signing - (gone + {s});
    assert st.stamps - gone - {s} == st.stamps - (gone + {s});
    assert st.buffer - gone - {s} == st.buffer - (gone + {s});
    assert st.peers.byIdentifier - gone - {s} == st.peers.byIdentifier - (gone + {s});
  }
}
