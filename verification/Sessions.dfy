/** One node's view of distributed key generation and two-round threshold
    signing: the session manager of client/tss/src/lib.rs, as functions from a
    state and an event to the next state.

    The protocol is FROST (sections 5.1 to 5.3 of RFC 9591 for signing); its
    cryptography is a parameter here. */
module Sessions {
  import opened Prelude
  import opened FileNames
  import D = DkgStorage
  import P = PeerMapping
  import E = Ecdsa

  type Bytes = D.Bytes
  type Account = P.Account
  type PeerId = P.PeerId
  type Packages = map<Identifier, Bytes>
  type KeyFile = D.KeyFile

  /** Seconds. A new session manager starts with an hour; the node's set-up makes
      it two. */
  const SESSION_TIMEOUT: nat := 7200
  /** Key generation has no coordinator; the field is all zeros. */
  const NOBODY: Account := ""

  datatype DkgState =
    | Idle | Round1Initiated | Round1Completed | Round2Initiated | Round2Completed
    | Round3Initiated | Round3Completed | KeyGenerated | DkgFailed
  {
    /** The order of declaration, by which states are compared. */
    function Rank(): nat {
      match this
      case Idle => 0 case Round1Initiated => 1 case Round1Completed => 2 case Round2Initiated => 3
      case Round2Completed => 4 case Round3Initiated => 5 case Round3Completed => 6
      case KeyGenerated => 7 case DkgFailed => 8
    }
  }

  datatype SigningState =
    | SignIdle | Sign1Initiated | Sign1Completed | Sign2Initiated | Sign2Completed
    | Sign3Initiated | Sign3Completed | SignatureGenerated | SigningFailed
  {
    function Rank(): nat {
      match this
      case SignIdle => 0 case Sign1Initiated => 1 case Sign1Completed => 2 case Sign2Initiated => 3
      case Sign2Completed => 4 case Sign3Initiated => 5 case Sign3Completed => 6
      case SignatureGenerated => 7 case SigningFailed => 8
    }
  }

  datatype SessionData = SessionData(t: nat, n: nat, coordinator: Account, message: Bytes)

  datatype Message =
    | DkgRound1(bytes: Bytes)
    | DkgRound2(bytes: Bytes, recipient: PeerId)
    | SigningCommitment(bytes: Bytes)
    | SigningPackageFor(bytes: Bytes)
    | SigningShare(bytes: Bytes)
    | EcdsaMessage(kind: E.Kind, index: string, bytes: Bytes)

  /** What can be read back from bytes, and how many commitments a readable
      signing package has. */
  datatype Formats = Formats(
    round1Parses: set<Bytes>,
    round2Parses: set<Bytes>,
    commitmentParses: set<Bytes>,
    shareParses: set<Bytes>,
    packageSigners: map<Bytes, nat>)

  /** The cryptographic libraries as one event finds them: which calls succeed.
      An event makes finitely many calls, so finite sets describe every behaviour,
      and the next event may find another one. */
  datatype Crypto = Crypto(
    formats: Formats,
    part1: set<(nat, nat)>,
    part2: set<(D.Blob, Packages)>,
    part3: set<(D.Blob, Packages, Packages)>,
    signs: set<(Bytes, KeyFile)>,
    aggregates: set<(Packages, Packages)>,
    createsPhase: set<E.Slot>,
    library: E.Library)

  datatype State = State(
    validatorKey: Account,
    localPeer: PeerId,
    data: map<SessionId, SessionData>,
    stamps: map<SessionId, int>,
    dkg: map<SessionId, DkgState>,
    signing: map<SessionId, SigningState>,
    buffer: map<SessionId, seq<(PeerId, Message)>>,
    store: D.Store,
    keys: map<D.KeySlot, KeyFile>,
    peers: P.Peers,
    ecdsa: E.State)

  function Initial(validatorKey: Account, localPeer: PeerId): State {
    State(validatorKey, localPeer, map[], map[], map[], map[], map[],
          D.Store(map[], map[]), map[], P.Peers(map[], map[], map[], map[]), E.EMPTY)
  }

  datatype Error =
    | IdentifierNotFound | SessionNotYetInitiated | Round2SecretPackageNotYetAvailable
    | DeserializationError | SignatureAggregationError | SignatureNotReadyYet
    | BadParameters | NotAuthorized | Round1GenerationFailed

  /** How a handler ends: it returns, it panics, or it is still nesting calls when
      the given call depth is used up. */
  datatype Outcome = Returned(st: State, error: Option<Error>) | Aborted | TooDeep

  // ---------------------------------------------------------------- small accessors

  function DkgOf(st: State, s: SessionId): DkgState {
    if s in st.dkg then st.dkg[s] else Idle
  }

  function SetDkg(st: State, s: SessionId, x: DkgState): State {
    st.(dkg := st.dkg[s := x])
  }

  function SetSigning(st: State, s: SessionId, x: SigningState): State {
    st.(signing := st.signing[s := x])
  }

  function Waiting(st: State, s: SessionId): seq<(PeerId, Message)> {
    if s in st.buffer then st.buffer[s] else []
  }

  /** Reading the buffer creates an empty entry. */
  function Touched(st: State, s: SessionId): State {
    st.(buffer := st.buffer[s := Waiting(st, s)])
  }

  function Buffered(st: State, s: SessionId, sender: PeerId, m: Message): State {
    st.(buffer := st.buffer[s := Waiting(st, s) + [(sender, m)]])
  }

  function Stored(st: State, shelf: D.Shelf, s: SessionId, id: Identifier, bytes: Bytes): State {
    st.(store := D.Put(st.store, shelf, s, id, bytes))
  }

  function StoredData(st: State, s: SessionId, t: StorageType, blob: D.Blob): State {
    st.(store := D.PutData(st.store, s, t, blob))
  }

  /** A stored secret package, if there is a readable one. */
  function Secret(st: State, s: SessionId, t: StorageType): Option<D.Blob> {
    if (s, t) in st.store.data && st.store.data[(s, t)].SecretPackage? then Some(st.store.data[(s, t)]) else None
  }

  predicate TimedOut(st: State, s: SessionId, now: int) {
    s in st.stamps && now - st.stamps[s] > SESSION_TIMEOUT
  }

  // ---------------------------------------------------------------- key generation

  /** The last step: with enough round-2 packages, compute and store the key. */
  function Complete(c: Crypto, o: P.Orders, st: State, s: SessionId): Outcome {
    var secret := Secret(st, s, DKGRound2SecretPackage);
    if secret.None? then Returned(st, Some(Round2SecretPackageNotYetAvailable))
    else
      var round1 := D.Fetch(st.store, D.Round1, s, c.formats.round1Parses);
      var round2 := D.Fetch(st.store, D.Round2, s, c.formats.round2Parses);
      if round1.None? || round2.None? then Aborted
      else if |round2.value| < secret.value.maxSigners - 1 then Returned(st, None)
      else if (secret.value, round1.value, round2.value) !in c.part3 then Returned(SetDkg(st, s, DkgFailed), None)
      else
        match P.IdentifierOfAccount(o, st.peers, s, st.validatorKey)
        case Aborts => Aborted
        case Missing => Returned(st, Some(IdentifierNotFound))
        case Found(id) => Returned(SetDkg(WithKeys(st, s, id, secret.value.minSigners), s, KeyGenerated), None)
  }

  function WithKeys(st: State, s: SessionId, id: Identifier, minSigners: nat): State {
    st.(keys := st.keys[(s, PubKey, id) := D.PublicKeys][(s, Key, id) := D.KeyPackage(minSigners)])
  }

  /** Replays the buffered round-2 messages and then tries to finish. Replaying a
      message may call this again, hence the depth. */
  function VerifyAndComplete(c: Crypto, o: P.Orders, st: State, s: SessionId, depth: nat): Outcome
    decreases depth, 0, 0
  {
    if depth == 0 then TooDeep
    else
      var r := ReplayRound2(c, o, Touched(st, s), s, Waiting(st, s), depth - 1);
      if r.Returned? then Complete(c, o, r.st, s) else r
  }

  function ReplayRound2(c: Crypto, o: P.Orders, st: State, s: SessionId, ms: seq<(PeerId, Message)>, depth: nat): Outcome
    decreases depth, 2, |ms|
  {
    if ms == [] then Returned(st, None)
    else
      var (sender, m) := ms[0];
      var r := if m.DkgRound2? then HandleRound2(c, o, st, s, m.bytes, m.recipient, sender, depth) else Returned(st, None);
      if r.Returned? then ReplayRound2(c, o, r.st, s, ms[1..], depth) else r
  }

  function HandleRound2(c: Crypto, o: P.Orders, st: State, s: SessionId, bytes: Bytes, recipient: PeerId, sender: PeerId, depth: nat): Outcome
    decreases depth, 1, 0
  {
    if DkgOf(st, s).Rank() < Round2Initiated.Rank() then Returned(st, Some(Round2SecretPackageNotYetAvailable))
    else if recipient != st.localPeer then Returned(st, None)
    else
      var id := P.IdentifierOfPeer(o, st.peers, s, sender);
      if id.Aborts? then Aborted
      else if id.Missing? then Returned(st, Some(IdentifierNotFound))
      else if bytes !in c.formats.round2Parses then Returned(st, Some(DeserializationError))
      else
        var r := VerifyAndComplete(c, o, Stored(st, D.Round2, s, id.id, bytes), s, depth);
        if r.Returned? then Returned(r.st, None) else r
  }

  /** Enough round-1 packages: derive the round-2 secret, which keeps the signer
      limits of the round-1 secret, and try to finish at once. */
  function StartRound2(c: Crypto, o: P.Orders, st: State, s: SessionId, secret: D.Blob, packages: Packages, depth: nat): Outcome {
    if (secret, packages) !in c.part2 then Returned(SetDkg(st, s, DkgFailed), None)
    else
      var st1 := SetDkg(StoredData(st, s, DKGRound2SecretPackage, secret), s, Round2Initiated);
      var r := VerifyAndComplete(c, o, st1, s, depth);
      if r.Returned? then Returned(r.st, None) else r
  }

  function VerifyRound1(c: Crypto, o: P.Orders, st: State, s: SessionId, depth: nat): Outcome {
    var secret := Secret(st, s, DKGRound1SecretPackage);
    if secret.None? then Returned(st, None)
    else
      var packages := D.Fetch(st.store, D.Round1, s, c.formats.round1Parses);
      if packages.None? then Aborted
      else if |packages.value| < secret.value.maxSigners - 1 then Returned(st, None)
      else StartRound2(c, o, st, s, secret.value, packages.value, depth)
  }

  function HandleRound1(c: Crypto, o: P.Orders, st: State, s: SessionId, bytes: Bytes, sender: PeerId, depth: nat): Outcome {
    var id := P.IdentifierOfPeer(o, st.peers, s, sender);
    if id.Aborts? then Aborted
    else if id.Missing? then Returned(st, Some(IdentifierNotFound))
    else
      var st1 := Stored(st, D.Round1, s, id.id, bytes);
      if DkgOf(st, s).Rank() < Round1Initiated.Rank() then Returned(st1, Some(SessionNotYetInitiated))
      else VerifyRound1(c, o, st1, s, depth)
  }

  function ReplayRound1(c: Crypto, o: P.Orders, st: State, s: SessionId, ms: seq<(PeerId, Message)>, depth: nat): Outcome
    decreases |ms|
  {
    if ms == [] then Returned(st, None)
    else
      var (sender, m) := ms[0];
      var r := if m.DkgRound1? then HandleRound1(c, o, st, s, m.bytes, sender, depth) else Returned(st, None);
      if r.Returned? then ReplayRound1(c, o, r.st, s, ms[1..], depth) else r
  }

  // ---------------------------------------------------------------- creating sessions

  /** Creating a session that exists already overwrites its data and restarts its
      clock. */
  function AddSession(st: State, now: int, s: SessionId, d: SessionData, participants: seq<Account>): Outcome {
    if d.t == 0 || d.n == 0 || d.t > d.n || |participants| != d.n then Returned(st, Some(BadParameters))
    else
      var peers := P.AddParticipants(st.peers, s, participants);
      if peers.None? then Aborted
      else Returned(st.(data := st.data[s := d], peers := peers.value, stamps := st.stamps[s := now]), None)
  }

  function StartDkg(c: Crypto, o: P.Orders, st: State, s: SessionId, t: nat, n: nat, participants: seq<Account>, depth: nat): Outcome {
    if st.validatorKey !in participants then Returned(st, Some(NotAuthorized))
    else if (t, n) !in c.part1 then Returned(st, Some(Round1GenerationFailed))
    else
      var st1 := SetDkg(StoredData(st, s, DKGRound1SecretPackage, D.SecretPackage(t, n)), s, Round1Initiated);
      var r := ReplayRound1(c, o, Touched(st1, s), s, Waiting(st1, s), depth);
      if r.Returned? then VerifyRound1(c, o, r.st, s, depth) else r
  }

  function WithPhase(c: Crypto, st: State, slot: E.Slot): State {
    if slot in c.createsPhase then st.(ecdsa := E.Create(st.ecdsa, slot)) else st
  }

  function CreateDkg(c: Crypto, o: P.Orders, st: State, now: int, s: SessionId, t: nat, n: nat, participants: seq<Account>, depth: nat): Outcome {
    var added := AddSession(st, now, s, SessionData(t, n, NOBODY, ""), participants);
    if !added.Returned? || added.error.Some? then added
    else
      var r := StartDkg(c, o, added.st, s, t, n, participants, depth);
      if !r.Returned? || r.error.Some? then r
      else Returned(WithPhase(c, r.st, (E.Keygen, s)), None)
  }

  function CreateReshare(c: Crypto, st: State, now: int, s: SessionId, t: nat, n: nat, participants: seq<Account>): Outcome {
    var added := AddSession(st, now, s, SessionData(t, n, NOBODY, ""), participants);
    if !added.Returned? || added.error.Some? || st.validatorKey !in participants then added
    else Returned(WithPhase(c, added.st, (E.Reshare, s)), None)
  }

  /** The last position, because the search does not stop at the first. */
  function LastPosition(participants: seq<Account>, a: Account): Option<nat> {
    if participants == [] then None
    else if participants[|participants| - 1] == a then Some(|participants| - 1)
    else LastPosition(participants[..|participants| - 1], a)
  }

  function ByPosition(participants: seq<Account>): map<Identifier, Account> {
    if participants == [] then map[]
    else
      var n := |participants|;
      ByPosition(participants[..n - 1])[n := participants[n - 1]]
  }

  function Numbered(st: State, s: SessionId, participants: seq<Account>): State {
    st.(peers := st.peers.(byIdentifier := st.peers.byIdentifier[s := ByPosition(participants)]))
  }

  /** Participant number `mine` needs its key file to make its nonces. */
  function Commit(o: P.Orders, st: State, s: SessionId, mine: Identifier, coordinator: Account): Outcome {
    var file := (s, Key, mine);
    if file !in st.keys then Aborted
    else if !st.keys[file].KeyPackage? then Returned(st, None)
    else
      var st1 := StoredData(st, s, SigningNonces, D.Nonces);
      Returned(SetSigning(st1, s, if P.PeerOfAccount(o, st.peers, coordinator).Some? then Sign1Completed else Sign1Initiated), None)
  }

  function StartSigning(o: P.Orders, st: State, s: SessionId, participants: seq<Account>, coordinator: Account): Outcome {
    var mine := LastPosition(participants, st.validatorKey);
    if mine.None? then Returned(st, None)
    else Commit(o, Numbered(st, s, participants), s, mine.value + 1, coordinator)
  }

  /** `offline` tells whether the ECDSA offline output for this session is there. */
  function CreateSigning(c: Crypto, o: P.Orders, st: State, now: int, s: SessionId, d: SessionData, participants: seq<Account>, offline: bool): Outcome {
    var added := AddSession(st, now, s, d, participants);
    if !added.Returned? || added.error.Some? then added
    else
      var r := StartSigning(o, added.st, s, participants, d.coordinator);
      if !r.Returned? || st.validatorKey !in participants || !offline then r
      else Returned(WithPhase(c, r.st, (E.SignOnline, s)), None)
  }

  // ---------------------------------------------------------------- signing

  /** The coordinator's step: with commitments from at least t participants, build
      and store the signing package and send it out. */
  function VerifyCommitments(c: Crypto, st: State, s: SessionId): Outcome {
    var commitments := D.Fetch(st.store, D.Commitments, s, c.formats.commitmentParses);
    if commitments.None? then Aborted
    else if s !in st.data then Returned(st, None)
    else if |commitments.value| > U16_MAX then Aborted
    else if |commitments.value| < st.data[s].t then Returned(st, None)
    else Returned(SetSigning(StoredData(st, s, SigningPackage, D.Package(commitments.value)), s, Sign2Completed), None)
  }

  function HandleCommitment(c: Crypto, o: P.Orders, st: State, now: int, s: SessionId, bytes: Bytes, sender: PeerId): Outcome {
    var id := P.IdentifierOfPeer(o, st.peers, s, sender);
    if id.Aborts? then Aborted
    else if id.Missing? then Returned(st, Some(IdentifierNotFound))
    else
      var st1 := Stored(st, D.Commitments, s, id.id, bytes);
      if s in st1.signing && st1.signing[s].Rank() >= Sign2Completed.Rank() then Returned(st1, None)
      else if !TimedOut(st1, s, now) && s in st1.data && st1.data[s].coordinator == st1.validatorKey
      then VerifyCommitments(c, st1, s)
      else Returned(st1, None)
  }

  /** A participant's step: answer a signing package with a signature share. */
  function HandleSigningPackage(c: Crypto, o: P.Orders, st: State, s: SessionId, bytes: Bytes): Outcome {
    var st1 := SetSigning(st, s, Sign2Initiated);
    if bytes !in c.formats.packageSigners then Returned(st1, Some(DeserializationError))
    else
      match P.IdentifierOfAccount(o, st1.peers, s, st1.validatorKey)
      case Aborts => Aborted
      case Missing => Returned(st1, Some(IdentifierNotFound))
      case Found(id) =>
        var file := (s, Key, id);
        if file !in st1.keys || !st1.keys[file].KeyPackage? then Aborted
        else if c.formats.packageSigners[bytes] < st1.keys[file].minSigners then Returned(st1, None)
        else if (s, SigningNonces) !in st1.store.data || (bytes, st1.keys[file]) !in c.signs || s !in st1.data then Aborted
        else if P.PeerOfAccount(o, st1.peers, st1.data[s].coordinator).Some? then Returned(SetSigning(st1, s, Sign2Completed), None)
        else Returned(st1, None)
  }

  /** The coordinator's last step: with t signature shares, aggregate them. */
  function HandleShare(c: Crypto, o: P.Orders, st: State, s: SessionId, bytes: Bytes, sender: PeerId): Outcome {
    var st1 := SetSigning(st, s, Sign3Initiated);
    if bytes !in c.formats.shareParses then Returned(st1, Some(DeserializationError))
    else
      var id := P.IdentifierOfPeer(o, st1.peers, s, sender);
      if id.Aborts? then Aborted
      else if id.Missing? then Returned(st1, Some(IdentifierNotFound))
      else
        var st2 := Stored(st1, D.Shares, s, id.id, bytes);
        var shares := D.Fetch(st2.store, D.Shares, s, c.formats.shareParses);
        if shares.None? || s !in st2.data then Aborted
        else if |shares.value| < st2.data[s].t then Returned(st2, Some(SignatureNotReadyYet))
        else Aggregate(c, o, st2, s, shares.value)
  }

  function Aggregate(c: Crypto, o: P.Orders, st: State, s: SessionId, shares: Packages): Outcome {
    match P.IdentifierOfAccount(o, st.peers, s, st.validatorKey)
    case Aborts => Aborted
    case Missing => Returned(st, Some(IdentifierNotFound))
    case Found(me) =>
      var k := (s, SigningPackage);
      if (s, PubKey, me) !in st.keys || k !in st.store.data || !st.store.data[k].Package? then Aborted
      else if (st.store.data[k].commitments, shares) !in c.aggregates
      then Returned(SetSigning(st, s, SigningFailed), Some(SignatureAggregationError))
      else Returned(SetSigning(st, s, SignatureGenerated), None)
  }

  // ---------------------------------------------------------------- events

  /** An ECDSA message goes to its phase after the buffered ones. */
  function GossipEcdsa(c: Crypto, o: P.Orders, st: State, s: SessionId, kind: E.Kind, m: E.Message): State {
    if P.IndexOfPeer(o, st.peers, s, st.localPeer).None? || kind == E.Reshare then st
    else
      var replayed := E.Replay(c.library, st.ecdsa, (kind, s)).0;
      st.(ecdsa := E.Handle(c.library, replayed, (kind, s), m).0)
  }

  /** Session ids are carried by the messages themselves. Key-generation messages
      that come too early are buffered. */
  function Gossip(c: Crypto, o: P.Orders, st: State, now: int, s: SessionId, sender: PeerId, m: Message, depth: nat): Outcome {
    if s !in st.data then Returned(if m.DkgRound1? then Buffered(st, s, sender, m) else st, None)
    else if TimedOut(st, s, now) then Returned(st, None)
    else
      match m
      case DkgRound1(bytes) =>
        var r := HandleRound1(c, o, st, s, bytes, sender, depth);
        if r.Returned? && r.error == Some(IdentifierNotFound) then Returned(Buffered(r.st, s, sender, m), None) else r
      case DkgRound2(bytes, recipient) =>
        var r := HandleRound2(c, o, st, s, bytes, recipient, sender, depth);
        if r.Returned? && r.error == Some(Round2SecretPackageNotYetAvailable) then Returned(Buffered(r.st, s, sender, m), None) else r
      case SigningCommitment(bytes) => HandleCommitment(c, o, st, now, s, bytes, sender)
      case SigningPackageFor(bytes) => HandleSigningPackage(c, o, st, s, bytes)
      case SigningShare(bytes) => HandleShare(c, o, st, s, bytes, sender)
      case EcdsaMessage(kind, index, bytes) => Returned(GossipEcdsa(c, o, st, s, kind, (index, bytes)), None)
  }

  /** Forgets sessions, but not the index table, the stored packages, the key
      files or the ECDSA phases. */
  function Forgotten(st: State, gone: set<SessionId>): State {
    st.(data := st.data - gone,
        peers := st.peers.(byIdentifier := st.peers.byIdentifier - gone),
        dkg := st.dkg - gone,
        signing := st.signing - gone,
        stamps := st.stamps - gone,
        buffer := st.buffer - gone)
  }

  /** Forgets every session older than the timeout. */
  function Cleanup(st: State, now: int): State {
    Forgotten(st, set s | s in st.stamps && now - st.stamps[s] > SESSION_TIMEOUT)
  }

  datatype Event =
    | GossipEvent(s: SessionId, sender: PeerId, message: Message)
    | DkgInfo(s: SessionId, t: nat, n: nat, participants: seq<Account>)
    | ReshareInfo(s: SessionId, t: nat, n: nat, participants: seq<Account>)
    | SigningInfo(s: SessionId, d: SessionData, participants: seq<Account>, offline: bool)
    | PhaseReady(s: SessionId, kind: E.Kind)
    | ValidatorIdAssigned(account: Account, id: nat)
    | PeerAnnounced(peer: PeerId, owner: Account)
    | CleanupTick

  /** An event with its time, the iteration orders of the hash maps, the call
      depth that the stack allows, and the answers of the libraries. */
  datatype Stimulus = Stimulus(event: Event, now: int, orders: P.Orders, depth: nat, crypto: Crypto)

  function Step(st: State, x: Stimulus): Outcome {
    var c := x.crypto;
    match x.event
    case GossipEvent(s, sender, m) => Gossip(c, x.orders, st, x.now, s, sender, m, x.depth)
    case DkgInfo(s, t, n, participants) => CreateDkg(c, x.orders, st, x.now, s, t, n, participants, x.depth)
    case ReshareInfo(s, t, n, participants) => CreateReshare(c, st, x.now, s, t, n, participants)
    case SigningInfo(s, d, participants, offline) => CreateSigning(c, x.orders, st, x.now, s, d, participants, offline)
    case PhaseReady(s, kind) => Returned(WithPhase(c, st, (kind, s)), None)
    case ValidatorIdAssigned(a, id) => Returned(st.(peers := st.peers.(validatorIds := st.peers.validatorIds[a := id])), None)
    case PeerAnnounced(peer, a) => Returned(st.(peers := st.peers.(peers := st.peers.peers[peer := a])), None)
    case CleanupTick => Returned(Cleanup(st, x.now), None)
  }

  /** The state after a run, unless some handler did not return. */
  function Run(st: State, run: seq<Stimulus>): Option<State> {
    if run == [] then Some(st) else Advance(Run(st, run[..|run| - 1]), run[|run| - 1])
  }

  function Advance(before: Option<State>, x: Stimulus): Option<State> {
    if before.Some? && Step(before.value, x).Returned? then Some(Step(before.value, x).st) else None
  }

  lemma RunNext(st: State, run: seq<Stimulus>, before: State)
    requires run != [] && Run(st, run[..|run| - 1]) == Some(before)
    ensures var r := Step(before, run[|run| - 1]);
            Run(st, run) == if r.Returned? then Some(r.st) else None
  {
  }

  lemma RunLast(st: State, run: seq<Stimulus>, before: State, after: State)
    requires run != [] && Run(st, run[..|run| - 1]) == Some(before) && Goes(before, run[|run| - 1], after)
    ensures Run(st, run) == Some(after)
  {
    RunNext(st, run, before);
  }

  /** The step from a to b. */
  ghost predicate Goes(a: State, x: Stimulus, b: State) {
    Step(a, x).Returned? && Step(a, x).st == b
  }

  /** A run, state by state. */
  lemma {:induction false} TraceRuns(states: seq<State>, run: seq<Stimulus>)
    requires |states| == |run| + 1 && forall i :: 0 <= i < |run| ==> Goes(states[i], run[i], states[i + 1])
    ensures Run(states[0], run) == Some(states[|run|])
  {
    if run != [] {
      var k := |run| - 1;
      TraceRuns(states[..k + 1], run[..k]);
      assert Goes(states[k], run[k], states[k + 1]);
      RunNext(states[0], run, states[k]);
    }
  }

  /** Its part from the e-th event on. */
  lemma TraceRunsFrom(states: seq<State>, run: seq<Stimulus>, e: nat)
    requires |states| == |run| + 1 && e <= |run| && forall i :: e <= i < |run| ==> Goes(states[i], run[i], states[i + 1])
    ensures Run(states[e], run[e..]) == Some(states[|run|])
  {
    var part, rest := states[e..], run[e..];
    forall i | 0 <= i < |rest| ensures Goes(part[i], rest[i], part[i + 1]) {
      assert Goes(states[e + i], run[e + i], states[e + i + 1]);
    }
    TraceRuns(part, rest);
  }

  lemma RunJoin(st: State, a: seq<Stimulus>, middle: State, b: seq<Stimulus>, end: State)
    requires Run(st, a) == Some(middle) && Run(middle, b) == Some(end)
    ensures Run(st, a + b) == Some(end)
  {
    RunSplit(st, a, b);
  }

  lemma RunAppend(st: State, run: seq<Stimulus>, x: Stimulus, before: State)
    requires Run(st, run) == Some(before)
    ensures var r := Step(before, x);
            Run(st, run + [x]) == if r.Returned? then Some(r.st) else None
  {
    assert (run + [x])[..|run + [x]| - 1] == run;
    RunNext(st, run + [x], before);
  }

  lemma {:induction false} RunSplit(st: State, a: seq<Stimulus>, b: seq<Stimulus>)
    requires Run(st, a).Some?
    ensures Run(st, a + b) == Run(Run(st, a).value, b)
  {
    if b == [] {
      assert a + b == a;
    } else {
      var k := |b| - 1;
      RunSplit(st, a, b[..k]);
      assert (a + b)[..|a + b| - 1] == a + b[..k] && (a + b)[|a + b| - 1] == b[k];
      assert Run(st, a + b) == Advance(Run(st, a + b[..k]), b[k]);
    }
  }
}
