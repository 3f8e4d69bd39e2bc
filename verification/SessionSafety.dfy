/** What holds in every state that a node can reach, in any order of events, with
    duplicates, re-created and expired sessions and buffered replays. */
module SessionSafety {
  import opened Prelude
  import opened FileNames
  import opened Sessions
  import opened SessionLocality
  import D = DkgStorage
  import P = PeerMapping
  import E = Ecdsa

  // ---------------------------------------------------------------- the invariant

  /** Both key files of some participant are on disk. */
  ghost predicate KeysOnDisk(st: State, s: SessionId) {
    exists id: Identifier :: (s, Key, id) in st.keys && (s, PubKey, id) in st.keys
  }

  /** A round-2 secret for n signers needs n - 1 packages from round 1; a generated
      key needs such a secret, n - 1 packages from round 2 and its two files. */
  ghost predicate DkgSound(st: State, s: SessionId) {
    var secret := Secret(st, s, DKGRound2SecretPackage);
    && (secret.Some? ==> |D.Get(st.store, D.Round1, s)| >= secret.value.maxSigners - 1)
    && (DkgOf(st, s) == KeyGenerated ==>
          secret.Some? && |D.Get(st.store, D.Round2, s)| >= secret.value.maxSigners - 1 && KeysOnDisk(st, s))
  }

  function SigningPackageOf(st: State, s: SessionId): Option<Packages> {
    var k := (s, SigningPackage);
    if k in st.store.data && st.store.data[k].Package? then Some(st.store.data[k].commitments) else None
  }

  /** With every threshold of the session at least t: a stored signing package has
      at least t commitments, and a generated signature was aggregated from such a
      package and at least t shares. */
  ghost predicate SigningSound(st: State, s: SessionId, t: nat) {
    var package := SigningPackageOf(st, s);
    && (s in st.data ==> st.data[s].t >= t)
    && (package.Some? ==> |package.value| >= t)
    && (s in st.signing && st.signing[s] == SignatureGenerated ==>
          package.Some? && |D.Get(st.store, D.Shares, s)| >= t)
  }

  /** The tables of live sessions agree with each other. */
  ghost predicate TablesAgree(st: State) {
    && st.data.Keys == st.stamps.Keys
    && st.dkg.Keys <= st.data.Keys && st.signing.Keys <= st.data.Keys && st.peers.byIdentifier.Keys <= st.data.Keys
    && (forall s :: s in st.data ==> 1 <= st.data[s].t <= st.data[s].n)
  }

  /** All of a session's safety, with t a lower bound of its thresholds. */
  ghost predicate Sound(st: State, s: SessionId, t: nat) {
    TablesAgree(st) && DkgSound(st, s) && SigningSound(st, s, t)
  }

  // ---------------------------------------------------------------- primitive changes

  lemma TableGrows(m: Packages, id: Identifier, bytes: Bytes)
    ensures |m[id := bytes]| >= |m|
  {
  }

  /** Buffers and ECDSA phases do not matter. */
  lemma SoundDepends(a: State, b: State, s: SessionId, t: nat)
    requires Sound(a, s, t)
    requires a.data == b.data && a.stamps == b.stamps && a.dkg == b.dkg && a.signing == b.signing
    requires a.store == b.store && a.keys == b.keys && a.peers == b.peers
    ensures Sound(b, s, t)
  {
    assert KeysOnDisk(a, s) ==> KeysOnDisk(b, s);
  }

  lemma StoredKeepsDkg(st: State, shelf: D.Shelf, s: SessionId, id: Identifier, bytes: Bytes)
    requires DkgSound(st, s)
    ensures DkgSound(Stored(st, shelf, s, id, bytes), s)
  {
    TableGrows(D.Get(st.store, shelf, s), id, bytes);
  }

  lemma StoredKeepsSigning(st: State, shelf: D.Shelf, s: SessionId, id: Identifier, bytes: Bytes, t: nat)
    requires SigningSound(st, s, t)
    ensures SigningSound(Stored(st, shelf, s, id, bytes), s, t)
  {
    TableGrows(D.Get(st.store, shelf, s), id, bytes);
  }

  lemma StoredKeeps(st: State, shelf: D.Shelf, s: SessionId, id: Identifier, bytes: Bytes, t: nat)
    requires Sound(st, s, t)
    ensures Sound(Stored(st, shelf, s, id, bytes), s, t)
  {
    StoredKeepsDkg(st, shelf, s, id, bytes);
    StoredKeepsSigning(st, shelf, s, id, bytes, t);
  }

  lemma DkgStateKeeps(st: State, s: SessionId, x: DkgState, t: nat)
    requires Sound(st, s, t) && s in st.data && x != KeyGenerated
    ensures Sound(SetDkg(st, s, x), s, t)
  {
  }

  lemma SigningStateKeeps(st: State, s: SessionId, x: SigningState, t: nat)
    requires Sound(st, s, t) && s in st.data
    requires x == SignatureGenerated ==> SigningPackageOf(st, s).Some? && |D.Get(st.store, D.Shares, s)| >= t
    ensures Sound(SetSigning(st, s, x), s, t)
  {
  }

  lemma BufferKeeps(st: State, s: SessionId, buffer: map<SessionId, seq<(PeerId, Message)>>, t: nat)
    requires Sound(st, s, t)
    ensures Sound(st.(buffer := buffer), s, t)
  {
    SoundDepends(st, st.(buffer := buffer), s, t);
  }

  /** Accounts, peers and indices may change freely, and the identifier table may
      get an entry for a live session. */
  lemma PeersKeep(st: State, s: SessionId, peers: P.Peers, t: nat)
    requires Sound(st, s, t) && peers.byIdentifier.Keys <= st.data.Keys
    ensures Sound(st.(peers := peers), s, t)
  {
  }

  lemma NoncesKeep(st: State, s: SessionId, t: nat)
    requires Sound(st, s, t)
    ensures Sound(StoredData(st, s, SigningNonces, D.Nonces), s, t)
  {
  }

  /** Storing a secret comes with a state that is not `KeyGenerated`. */
  lemma SecretKeeps(st: State, s: SessionId, k: StorageType, blob: D.Blob, x: DkgState, t: nat)
    requires Sound(st, s, t) && s in st.data && x != KeyGenerated && k != SigningPackage
    requires k == DKGRound2SecretPackage && blob.SecretPackage? ==> |D.Get(st.store, D.Round1, s)| >= blob.maxSigners - 1
    ensures Sound(SetDkg(StoredData(st, s, k, blob), s, x), s, t)
  {
  }

  lemma KeysKeep(st: State, s: SessionId, id: Identifier, minSigners: nat, t: nat)
    requires Sound(st, s, t) && s in st.data && Secret(st, s, DKGRound2SecretPackage).Some?
    requires |D.Get(st.store, D.Round2, s)| >= Secret(st, s, DKGRound2SecretPackage).value.maxSigners - 1
    ensures Sound(SetDkg(WithKeys(st, s, id, minSigners), s, KeyGenerated), s, t)
  {
    var b := SetDkg(WithKeys(st, s, id, minSigners), s, KeyGenerated);
    assert (s, Key, id) in b.keys && (s, PubKey, id) in b.keys;
  }

  lemma PackageKeeps(st: State, s: SessionId, commitments: Packages, t: nat)
    requires Sound(st, s, t) && s in st.data && |commitments| >= st.data[s].t
    ensures Sound(SetSigning(StoredData(st, s, SigningPackage, D.Package(commitments)), s, Sign2Completed), s, t)
  {
  }

  lemma PhaseKeeps(c: Crypto, st: State, slot: E.Slot, s: SessionId, t: nat)
    requires Sound(st, s, t)
    ensures Sound(WithPhase(c, st, slot), s, t)
  {
    SoundDepends(st, WithPhase(c, st, slot), s, t);
  }

  // ---------------------------------------------------------------- key generation

  lemma CompleteKeeps(c: Crypto, o: P.Orders, st: State, s: SessionId, t: nat)
    requires Sound(st, s, t) && s in st.data
    ensures var r := Complete(c, o, st, s); r.Returned? ==> Sound(r.st, s, t) && r.st.data == st.data
  {
    var r := Complete(c, o, st, s);
    if r.Returned? && r.st != st {
      if r.st == SetDkg(st, s, DkgFailed) {
        DkgStateKeeps(st, s, DkgFailed, t);
      } else {
        var id := P.IdentifierOfAccount(o, st.peers, s, st.validatorKey).id;
        KeysKeep(st, s, id, Secret(st, s, DKGRound2SecretPackage).value.minSigners, t);
      }
    }
  }

  lemma {:induction false} CompletionKeeps(c: Crypto, o: P.Orders, st: State, s: SessionId, depth: nat, t: nat)
    requires Sound(st, s, t) && s in st.data
    ensures var r := VerifyAndComplete(c, o, st, s, depth); r.Returned? ==> Sound(r.st, s, t) && r.st.data == st.data
    decreases depth, 0, 0
  {
    if depth > 0 {
      BufferKeeps(st, s, Touched(st, s).buffer, t);
      Replay2Keeps(c, o, Touched(st, s), s, Waiting(st, s), depth - 1, t);
      var r := ReplayRound2(c, o, Touched(st, s), s, Waiting(st, s), depth - 1);
      if r.Returned? {
        CompleteKeeps(c, o, r.st, s, t);
      }
    }
  }

  lemma {:induction false} Replay2Keeps(c: Crypto, o: P.Orders, st: State, s: SessionId, ms: seq<(PeerId, Message)>, depth: nat, t: nat)
    requires Sound(st, s, t) && s in st.data
    ensures var r := ReplayRound2(c, o, st, s, ms, depth); r.Returned? ==> Sound(r.st, s, t) && r.st.data == st.data
    decreases depth, 2, |ms|
  {
    if ms != [] {
      var (sender, m) := ms[0];
      if m.DkgRound2? {
        Round2Keeps(c, o, st, s, m.bytes, m.recipient, sender, depth, t);
      }
      var r := if m.DkgRound2? then HandleRound2(c, o, st, s, m.bytes, m.recipient, sender, depth) else Returned(st, None);
      if r.Returned? {
        Replay2Keeps(c, o, r.st, s, ms[1..], depth, t);
      }
    }
  }

  lemma {:induction false} Round2Keeps(c: Crypto, o: P.Orders, st: State, s: SessionId, bytes: Bytes, recipient: PeerId, sender: PeerId, depth: nat, t: nat)
    requires Sound(st, s, t) && s in st.data
    ensures var r := HandleRound2(c, o, st, s, bytes, recipient, sender, depth); r.Returned? ==> Sound(r.st, s, t) && r.st.data == st.data
    decreases depth, 1, 0
  {
    var id := P.IdentifierOfPeer(o, st.peers, s, sender);
    if id.Found? {
      Stored2Keeps(c, o, st, s, bytes, id.id, depth, t);
    }
  }

  lemma {:induction false} Stored2Keeps(c: Crypto, o: P.Orders, st: State, s: SessionId, bytes: Bytes, id: Identifier, depth: nat, t: nat)
    requires Sound(st, s, t) && s in st.data
    ensures var r := VerifyAndComplete(c, o, Stored(st, D.Round2, s, id, bytes), s, depth);
            r.Returned? ==> Sound(r.st, s, t) && r.st.data == st.data
    decreases depth, 0, 1
  {
    StoredKeeps(st, D.Round2, s, id, bytes, t);
    CompletionKeeps(c, o, Stored(st, D.Round2, s, id, bytes), s, depth, t);
  }

  lemma Start2Keeps(c: Crypto, o: P.Orders, st: State, s: SessionId, secret: D.Blob, packages: Packages, depth: nat, t: nat)
    requires Sound(st, s, t) && s in st.data && secret.SecretPackage?
    requires |D.Get(st.store, D.Round1, s)| >= secret.maxSigners - 1
    ensures var r := StartRound2(c, o, st, s, secret, packages, depth); r.Returned? ==> Sound(r.st, s, t) && r.st.data == st.data
  {
    if (secret, packages) in c.part2 {
      var st1 := SetDkg(StoredData(st, s, DKGRound2SecretPackage, secret), s, Round2Initiated);
      SecretKeeps(st, s, DKGRound2SecretPackage, secret, Round2Initiated, t);
      CompletionKeeps(c, o, st1, s, depth, t);
    } else {
      DkgStateKeeps(st, s, DkgFailed, t);
    }
  }

  lemma Verify1Keeps(c: Crypto, o: P.Orders, st: State, s: SessionId, depth: nat, t: nat)
    requires Sound(st, s, t) && s in st.data
    ensures var r := VerifyRound1(c, o, st, s, depth); r.Returned? ==> Sound(r.st, s, t) && r.st.data == st.data
  {
    var secret, packages := Secret(st, s, DKGRound1SecretPackage), D.Fetch(st.store, D.Round1, s, c.formats.round1Parses);
    if secret.Some? && packages.Some? && |packages.value| >= secret.value.maxSigners - 1 {
      Start2Keeps(c, o, st, s, secret.value, packages.value, depth, t);
    }
  }

  lemma Round1Keeps(c: Crypto, o: P.Orders, st: State, s: SessionId, bytes: Bytes, sender: PeerId, depth: nat, t: nat)
    requires Sound(st, s, t) && s in st.data
    ensures var r := HandleRound1(c, o, st, s, bytes, sender, depth); r.Returned? ==> Sound(r.st, s, t) && r.st.data == st.data
  {
    var id := P.IdentifierOfPeer(o, st.peers, s, sender);
    if id.Found? {
      StoredKeeps(st, D.Round1, s, id.id, bytes, t);
      Verify1Keeps(c, o, Stored(st, D.Round1, s, id.id, bytes), s, depth, t);
    }
  }

  lemma {:induction false} Replay1Keeps(c: Crypto, o: P.Orders, st: State, s: SessionId, ms: seq<(PeerId, Message)>, depth: nat, t: nat)
    requires Sound(st, s, t) && s in st.data
    ensures var r := ReplayRound1(c, o, st, s, ms, depth); r.Returned? ==> Sound(r.st, s, t) && r.st.data == st.data
    decreases |ms|
  {
    if ms != [] {
      var (sender, m) := ms[0];
      if m.DkgRound1? {
        Round1Keeps(c, o, st, s, m.bytes, sender, depth, t);
      }
      var r := if m.DkgRound1? then HandleRound1(c, o, st, s, m.bytes, sender, depth) else Returned(st, None);
      if r.Returned? {
        Replay1Keeps(c, o, r.st, s, ms[1..], depth, t);
      }
    }
  }

  lemma StartDkgKeeps(c: Crypto, o: P.Orders, st: State, s: SessionId, u: nat, n: nat, participants: seq<Account>, depth: nat, t: nat)
    requires Sound(st, s, t) && s in st.data
    ensures var r := StartDkg(c, o, st, s, u, n, participants, depth); r.Returned? ==> Sound(r.st, s, t)
  {
    var st1 := SetDkg(StoredData(st, s, DKGRound1SecretPackage, D.SecretPackage(u, n)), s, Round1Initiated);
    SecretKeeps(st, s, DKGRound1SecretPackage, D.SecretPackage(u, n), Round1Initiated, t);
    BufferKeeps(st1, s, Touched(st1, s).buffer, t);
    Replay1Keeps(c, o, Touched(st1, s), s, Waiting(st1, s), depth, t);
    var r := ReplayRound1(c, o, Touched(st1, s), s, Waiting(st1, s), depth);
    if r.Returned? {
      Verify1Keeps(c, o, r.st, s, depth, t);
    }
  }

  // ---------------------------------------------------------------- signing

  lemma CommitmentKeeps(c: Crypto, o: P.Orders, st: State, now: int, s: SessionId, bytes: Bytes, sender: PeerId, t: nat)
    requires Sound(st, s, t) && s in st.data
    ensures var r := HandleCommitment(c, o, st, now, s, bytes, sender); r.Returned? ==> Sound(r.st, s, t)
  {
    var r := HandleCommitment(c, o, st, now, s, bytes, sender);
    var id := P.IdentifierOfPeer(o, st.peers, s, sender);
    if r.Returned? && id.Found? {
      var st1 := Stored(st, D.Commitments, s, id.id, bytes);
      StoredKeeps(st, D.Commitments, s, id.id, bytes, t);
      if r.st != st1 {
        PackageKeeps(st1, s, D.Get(st1.store, D.Commitments, s), t);
      }
    }
  }

  lemma SigningPackageKeeps(c: Crypto, o: P.Orders, st: State, s: SessionId, bytes: Bytes, t: nat)
    requires Sound(st, s, t) && s in st.data
    ensures var r := HandleSigningPackage(c, o, st, s, bytes); r.Returned? ==> Sound(r.st, s, t)
  {
    SigningStateKeeps(st, s, Sign2Initiated, t);
    SigningStateKeeps(SetSigning(st, s, Sign2Initiated), s, Sign2Completed, t);
  }

  lemma ShareKeeps(c: Crypto, o: P.Orders, st: State, s: SessionId, bytes: Bytes, sender: PeerId, t: nat)
    requires Sound(st, s, t) && s in st.data
    ensures var r := HandleShare(c, o, st, s, bytes, sender); r.Returned? ==> Sound(r.st, s, t)
  {
    var st1 := SetSigning(st, s, Sign3Initiated);
    SigningStateKeeps(st, s, Sign3Initiated, t);
    var id := P.IdentifierOfPeer(o, st1.peers, s, sender);
    if id.Found? {
      var st2 := Stored(st1, D.Shares, s, id.id, bytes);
      StoredKeeps(st1, D.Shares, s, id.id, bytes, t);
      assert st2.data == st.data;
      if |D.Get(st2.store, D.Shares, s)| >= st2.data[s].t {
        AggregateKeeps(c, o, st2, s, D.Get(st2.store, D.Shares, s), t);
      }
    }
  }

  lemma AggregateKeeps(c: Crypto, o: P.Orders, st: State, s: SessionId, shares: Packages, t: nat)
    requires Sound(st, s, t) && s in st.data && shares == D.Get(st.store, D.Shares, s) && |shares| >= t
    ensures var r := Aggregate(c, o, st, s, shares); r.Returned? ==> Sound(r.st, s, t)
  {
    SigningStateKeeps(st, s, SigningFailed, t);
    if SigningPackageOf(st, s).Some? {
      SigningStateKeeps(st, s, SignatureGenerated, t);
    }
  }

  lemma NumberedKeeps(st: State, s: SessionId, participants: seq<Account>, t: nat)
    requires Sound(st, s, t) && s in st.data
    ensures Sound(Numbered(st, s, participants), s, t)
  {
    var peers := Numbered(st, s, participants).peers;
    assert peers.byIdentifier.Keys == st.peers.byIdentifier.Keys + {s};
    PeersKeep(st, s, peers, t);
  }

  lemma StartSigningKeeps(o: P.Orders, st: State, s: SessionId, participants: seq<Account>, coordinator: Account, t: nat)
    requires Sound(st, s, t) && s in st.data
    ensures var r := StartSigning(o, st, s, participants, coordinator); r.Returned? ==> Sound(r.st, s, t)
  {
    var st1 := Numbered(st, s, participants);
    NumberedKeeps(st, s, participants, t);
    var st2 := StoredData(st1, s, SigningNonces, D.Nonces);
    NoncesKeep(st1, s, t);
    var x := if P.PeerOfAccount(o, st.peers, coordinator).Some? then Sign1Completed else Sign1Initiated;
    SigningStateKeeps(st2, s, x, t);
  }

  // ---------------------------------------------------------------- creating sessions

  lemma {:induction false} ParticipantKeys(p: P.Peers, s: SessionId, participants: seq<Account>)
    requires P.AddParticipants(p, s, participants).Some?
    ensures P.AddParticipants(p, s, participants).value.byIdentifier.Keys == p.byIdentifier.Keys + {s}
  {
    if participants != [] {
      ParticipantKeys(p, s, participants[..|participants| - 1]);
    }
  }

  lemma DataKeeps(st: State, now: int, s: SessionId, d: SessionData, t: nat)
    requires Sound(st, s, t) && d.t >= t && 1 <= d.t <= d.n
    ensures Sound(st.(data := st.data[s := d], stamps := st.stamps[s := now]), s, t)
  {
  }

  /** A successful creation records the session; a refused one changes nothing. */
  lemma AddSessionKeeps(st: State, now: int, s: SessionId, d: SessionData, participants: seq<Account>, t: nat)
    requires Sound(st, s, t) && d.t >= t
    ensures var r := AddSession(st, now, s, d, participants);
            r.Returned? ==> Sound(r.st, s, t) && (if r.error.None? then s in r.st.data else r.st == st)
  {
    var r := AddSession(st, now, s, d, participants);
    if r.Returned? && r.error.None? {
      var st1 := st.(data := st.data[s := d], stamps := st.stamps[s := now]);
      DataKeeps(st, now, s, d, t);
      ParticipantKeys(st.peers, s, participants);
      PeersKeep(st1, s, r.st.peers, t);
    }
  }

  // ---------------------------------------------------------------- one step

  /** An event that sets the threshold of session s sets it to at least t. */
  predicate GivesAtLeast(e: Event, s: SessionId, t: nat) {
    match e
    case DkgInfo(x, t', _, _) => x == s ==> t' >= t
    case ReshareInfo(x, t', _, _) => x == s ==> t' >= t
    case SigningInfo(x, d, _, _) => x == s ==> d.t >= t
    case _ => true
  }

  lemma GossipKeeps(c: Crypto, o: P.Orders, st: State, now: int, s: SessionId, sender: PeerId, m: Message, depth: nat, t: nat)
    requires Sound(st, s, t)
    ensures var r := Gossip(c, o, st, now, s, sender, m, depth); r.Returned? ==> Sound(r.st, s, t)
  {
    if s !in st.data || TimedOut(st, s, now) {
      BufferKeeps(st, s, Buffered(st, s, sender, m).buffer, t);
    } else {
      match m
      case DkgRound1(bytes) =>
        Round1Keeps(c, o, st, s, bytes, sender, depth, t);
        var r := HandleRound1(c, o, st, s, bytes, sender, depth);
        if r.Returned? {
          BufferKeeps(r.st, s, Buffered(r.st, s, sender, m).buffer, t);
        }
      case DkgRound2(bytes, recipient) =>
        Round2Keeps(c, o, st, s, bytes, recipient, sender, depth, t);
        var r := HandleRound2(c, o, st, s, bytes, recipient, sender, depth);
        if r.Returned? {
          BufferKeeps(r.st, s, Buffered(r.st, s, sender, m).buffer, t);
        }
      case SigningCommitment(bytes) => CommitmentKeeps(c, o, st, now, s, bytes, sender, t);
      case SigningPackageFor(bytes) => SigningPackageKeeps(c, o, st, s, bytes, t);
      case SigningShare(bytes) => ShareKeeps(c, o, st, s, bytes, sender, t);
      case EcdsaMessage(_, _, _) =>
    }
  }

  lemma CreateDkgKeeps(c: Crypto, o: P.Orders, st: State, now: int, s: SessionId, u: nat, n: nat, participants: seq<Account>, depth: nat, t: nat)
    requires Sound(st, s, t) && u >= t
    ensures var r := CreateDkg(c, o, st, now, s, u, n, participants, depth); r.Returned? ==> Sound(r.st, s, t)
  {
    var d := SessionData(u, n, NOBODY, "");
    AddSessionKeeps(st, now, s, d, participants, t);
    var added := AddSession(st, now, s, d, participants);
    if added.Returned? && added.error.None? {
      StartDkgKeeps(c, o, added.st, s, u, n, participants, depth, t);
      var r := StartDkg(c, o, added.st, s, u, n, participants, depth);
      if r.Returned? {
        PhaseKeeps(c, r.st, (E.Keygen, s), s, t);
      }
    }
  }

  lemma CreateReshareKeeps(c: Crypto, st: State, now: int, s: SessionId, u: nat, n: nat, participants: seq<Account>, t: nat)
    requires Sound(st, s, t) && u >= t
    ensures var r := CreateReshare(c, st, now, s, u, n, participants); r.Returned? ==> Sound(r.st, s, t)
  {
    var d := SessionData(u, n, NOBODY, "");
    AddSessionKeeps(st, now, s, d, participants, t);
    var added := AddSession(st, now, s, d, participants);
    if added.Returned? {
      PhaseKeeps(c, added.st, (E.Reshare, s), s, t);
    }
  }

  lemma CreateSigningKeeps(c: Crypto, o: P.Orders, st: State, now: int, s: SessionId, d: SessionData, participants: seq<Account>, offline: bool, t: nat)
    requires Sound(st, s, t) && d.t >= t
    ensures var r := CreateSigning(c, o, st, now, s, d, participants, offline); r.Returned? ==> Sound(r.st, s, t)
  {
    AddSessionKeeps(st, now, s, d, participants, t);
    var added := AddSession(st, now, s, d, participants);
    if added.Returned? && added.error.None? {
      StartSigningKeeps(o, added.st, s, participants, d.coordinator, t);
      var r := StartSigning(o, added.st, s, participants, d.coordinator);
      if r.Returned? {
        PhaseKeeps(c, r.st, (E.SignOnline, s), s, t);
      }
    }
  }

  lemma OwnStepKeeps(st: State, x: Stimulus, s: SessionId, t: nat)
    requires Sound(st, s, t) && SessionOf(x.event) == Some(s) && GivesAtLeast(x.event, s, t) && Step(st, x).Returned?
    ensures Sound(Step(st, x).st, s, t)
  {
    var c := x.crypto;
    match x.event
    case GossipEvent(_, sender, m) => GossipKeeps(c, x.orders, st, x.now, s, sender, m, x.depth, t);
    case DkgInfo(_, u, n, participants) => CreateDkgKeeps(c, x.orders, st, x.now, s, u, n, participants, x.depth, t);
    case ReshareInfo(_, u, n, participants) => CreateReshareKeeps(c, st, x.now, s, u, n, participants, t);
    case SigningInfo(_, d, participants, offline) => CreateSigningKeeps(c, x.orders, st, x.now, s, d, participants, offline, t);
    case PhaseReady(_, kind) => PhaseKeeps(c, st, (kind, s), s, t);
    case ValidatorIdAssigned(_, _) =>
    case PeerAnnounced(_, _) =>
    case CleanupTick =>
  }

  lemma CleanupKeeps(st: State, now: int, s: SessionId, t: nat)
    requires Sound(st, s, t)
    ensures Sound(Cleanup(st, now), s, t)
  {
  }

  lemma DkgSoundElsewhere(a: State, b: State, x: SessionId)
    requires SameSession(a, b, x) && DkgSound(a, x)
    ensures DkgSound(b, x)
  {
    assert Look(a.store.data, (x, DKGRound2SecretPackage)) == Look(b.store.data, (x, DKGRound2SecretPackage));
    assert D.Get(a.store, D.Round1, x) == D.Get(b.store, D.Round1, x);
    assert D.Get(a.store, D.Round2, x) == D.Get(b.store, D.Round2, x);
    if DkgOf(a, x) == KeyGenerated {
      var id: Identifier :| (x, Key, id) in a.keys && (x, PubKey, id) in a.keys;
      assert Look(b.keys, (x, Key, id)).Some? && Look(b.keys, (x, PubKey, id)).Some?;
    }
  }

  lemma SigningSoundElsewhere(a: State, b: State, x: SessionId, t: nat)
    requires SameSession(a, b, x) && SigningSound(a, x, t)
    ensures SigningSound(b, x, t)
  {
    assert Look(a.store.data, (x, SigningPackage)) == Look(b.store.data, (x, SigningPackage));
    assert D.Get(a.store, D.Shares, x) == D.Get(b.store, D.Shares, x);
  }

  lemma NodeEventKeeps(st: State, x: Stimulus, s: SessionId, t: nat)
    requires Sound(st, s, t) && SessionOf(x.event).None?
    ensures var r := Step(st, x); r.Returned? && Sound(r.st, s, t)
  {
    match x.event
    case ValidatorIdAssigned(a, id) => PeersKeep(st, s, st.peers.(validatorIds := st.peers.validatorIds[a := id]), t);
    case PeerAnnounced(peer, a) => PeersKeep(st, s, st.peers.(peers := st.peers.peers[peer := a]), t);
    case CleanupTick => CleanupKeeps(st, x.now, s, t);
    case _ =>
  }

  /** One event keeps every session safe. */
  lemma StepKeeps(st: State, x: Stimulus, s: SessionId, t: nat)
    requires SessionOf(x.event).Some? ==> Sound(st, SessionOf(x.event).value, 0)
    requires Sound(st, s, t) && GivesAtLeast(x.event, s, t) && Step(st, x).Returned?
    ensures Sound(Step(st, x).st, s, t)
  {
    var own := SessionOf(x.event);
    if own == Some(s) {
      OwnStepKeeps(st, x, s, t);
    } else if own.None? {
      NodeEventKeeps(st, x, s, t);
    } else {
      OwnStepKeeps(st, x, own.value, 0);
      SessionsAreIsolated(st, x, s);
      DkgSoundElsewhere(st, Step(st, x).st, s);
      SigningSoundElsewhere(st, Step(st, x).st, s, t);
    }
  }

  // ---------------------------------------------------------------- every run

  lemma {:induction false} RunsAreSound(me: Account, peer: PeerId, run: seq<Stimulus>, s: SessionId, t: nat)
    requires Run(Initial(me, peer), run).Some?
    requires forall x :: x in run ==> GivesAtLeast(x.event, s, t)
    ensures Sound(Run(Initial(me, peer), run).value, s, t)
    decreases |run|
  {
    if run != [] {
      var before, x := run[..|run| - 1], run[|run| - 1];
      RunsAreSound(me, peer, before, s, t);
      if SessionOf(x.event).Some? {
        RunsAreSound(me, peer, before, SessionOf(x.event).value, 0);
      }
      StepKeeps(Run(Initial(me, peer), before).value, x, s, t);
    }
  }

  /** In every run a session in state `KeyGenerated` has a stored round-2 secret
      for some n, packages from at least n - 1 distinct identifiers in round 1 and
      in round 2, and its key files, although states can go backwards and a failed
      session still accepts round-2 messages. */
  lemma KeyGeneratedIsEarned(me: Account, peer: PeerId, run: seq<Stimulus>, s: SessionId)
    requires Run(Initial(me, peer), run).Some?
    requires DkgOf(Run(Initial(me, peer), run).value, s) == KeyGenerated
    ensures var st := Run(Initial(me, peer), run).value;
            var secret := Secret(st, s, DKGRound2SecretPackage);
            && secret.Some?
            && |D.Get(st.store, D.Round1, s).Keys| >= secret.value.maxSigners - 1
            && |D.Get(st.store, D.Round2, s).Keys| >= secret.value.maxSigners - 1
            && KeysOnDisk(st, s)
  {
    RunsAreSound(me, peer, run, s, 0);
  }

  /** In every run in which no creation of session s asks for fewer than t signers,
      a generated signature means that the node holds a signing package built from
      at least t distinct commitments and at least t shares from distinct
      identifiers. */
  lemma SignatureIsEarned(me: Account, peer: PeerId, run: seq<Stimulus>, s: SessionId, t: nat)
    requires Run(Initial(me, peer), run).Some?
    requires forall x :: x in run ==> GivesAtLeast(x.event, s, t)
    requires var st := Run(Initial(me, peer), run).value;
             s in st.signing && st.signing[s] == SignatureGenerated
    ensures var st := Run(Initial(me, peer), run).value;
            && SigningPackageOf(st, s).Some? && |SigningPackageOf(st, s).value.Keys| >= t
            && |D.Get(st.store, D.Shares, s).Keys| >= t
  {
    RunsAreSound(me, peer, run, s, t);
  }

  /** In every run the session tables have matching keys and usable thresholds,
      and a cleanup leaves no session older than the timeout. */
  lemma TablesAlwaysAgree(me: Account, peer: PeerId, run: seq<Stimulus>, now: int)
    requires Run(Initial(me, peer), run).Some?
    ensures var st := Run(Initial(me, peer), run).value;
            && TablesAgree(st) && TablesAgree(Cleanup(st, now))
            && (forall s :: s in Cleanup(st, now).data <==> s in st.data && now - st.stamps[s] <= SESSION_TIMEOUT)
  {
    RunsAreSound(me, peer, run, 0, 0);
    CleanupKeeps(Run(Initial(me, peer), run).value, now, 0, 0);
  }
}
