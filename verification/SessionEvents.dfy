/** What single events do to a session, in terms of its tables: what is dropped,
    what waits, what is only stored, what expires and what a creation records. */
module SessionEvents {
  import opened Prelude
  import opened FileNames
  import opened SessionLocality
  import opened SessionProgress
  import opened SessionReplay
  import opened SessionSigner
  import opened SessionStart
  import opened Sessions
  import D = DkgStorage
  import P = PeerMapping
  import E = Ecdsa

  // ---------------------------------------------------------------- messages that do not count

  /** Two hours after its creation a session hears nothing any more. */
  lemma LateMessagesAreDropped(st: State, x: Stimulus)
    requires x.event.GossipEvent? && x.event.s in st.data && x.event.s in st.stamps && x.now > st.stamps[x.event.s] + 7200
    ensures Step(st, x) == Returned(st, None)
  {
  }

  /** Of messages for an unknown session only round-1 packages are kept. */
  lemma UnknownSession(st: State, x: Stimulus)
    requires x.event.GossipEvent? && x.event.s !in st.data
    ensures var r := Step(st, x);
            && r.Returned? && r.error.None?
            && r.st == st.(buffer := r.st.buffer)
            && (!x.event.message.DkgRound1? ==> r.st == st)
            && (x.event.message.DkgRound1? ==>
                  && Waiting(r.st, x.event.s) == Waiting(st, x.event.s) + [(x.event.sender, x.event.message)]
                  && forall other :: other != x.event.s ==> Waiting(r.st, other) == Waiting(st, other))
  {
  }

  /** A round-1 package of somebody who is not known to take part waits too. */
  lemma StrangersWait(st: State, x: Stimulus)
    requires x.event.GossipEvent? && x.event.message.DkgRound1? && x.event.s in st.data && !TimedOut(st, x.event.s, x.now)
    requires P.IdentifierOfPeer(x.orders, st.peers, x.event.s, x.event.sender).Missing?
    ensures Step(st, x) == Returned(Buffered(st, x.event.s, x.event.sender, x.event.message), None)
  {
  }

  /** Before the own first round a package is only stored. */
  lemma StoredAhead(st: State, x: Stimulus, id: Identifier)
    requires x.event.GossipEvent? && x.event.message.DkgRound1? && x.event.s in st.data && !TimedOut(st, x.event.s, x.now)
    requires P.IdentifierOfPeer(x.orders, st.peers, x.event.s, x.event.sender) == P.Found(id) && DkgOf(st, x.event.s) == Idle
    ensures var r := Step(st, x);
            && r.Returned? && r.st == st.(store := r.st.store) && r.st.store.data == st.store.data
            && D.Get(r.st.store, D.Round1, x.event.s) == D.Get(st.store, D.Round1, x.event.s)[id := x.event.message.bytes]
  {
  }

  /** A commitment that comes after the package has been sent, or to a node that
      does not coordinate, is only stored. */
  lemma CommitmentIsOnlyStored(c: Crypto, o: P.Orders, st: State, now: int, s: SessionId, bytes: Bytes, sender: PeerId, id: Identifier)
    requires P.IdentifierOfPeer(o, st.peers, s, sender) == P.Found(id) && s in st.data
    requires st.data[s].coordinator != st.validatorKey || (s in st.signing && st.signing[s] in
               {Sign2Completed, Sign3Initiated, Sign3Completed, SignatureGenerated, SigningFailed})
    ensures HandleCommitment(c, o, st, now, s, bytes, sender) == Returned(Stored(st, D.Commitments, s, id, bytes), None)
  {
  }

  ghost predicate AllRead(m: Packages, parses: set<Bytes>) {
    forall k :: k in m ==> m[k] in parses
  }

  /** Commitments are stored before they are read: the coordinator returns if and
      only if every one it holds, the new one included, can be read. */
  lemma CoordinatorReturnsIff(c: Crypto, o: P.Orders, st: State, now: int, s: SessionId, bytes: Bytes, sender: PeerId, id: Identifier)
    requires P.IdentifierOfPeer(o, st.peers, s, sender) == P.Found(id) && s in st.data && !TimedOut(st, s, now)
    requires st.data[s].coordinator == st.validatorKey && (s !in st.signing || st.signing[s].Rank() < Sign2Completed.Rank())
    requires |D.Get(st.store, D.Commitments, s)[id := bytes]| <= 65535
    ensures HandleCommitment(c, o, st, now, s, bytes, sender).Returned? <==>
              AllRead(D.Get(st.store, D.Commitments, s)[id := bytes], c.formats.commitmentParses)
  {
    var st1 := Stored(st, D.Commitments, s, id, bytes);
    assert D.Get(st1.store, D.Commitments, s) == D.Get(st.store, D.Commitments, s)[id := bytes];
  }

  /** A share begins the third round even if it is then refused, as unreadable or as
      coming from somebody unknown; refused shares are not stored. */
  lemma ShareIsRefused(c: Crypto, o: P.Orders, st: State, s: SessionId, bytes: Bytes, sender: PeerId)
    ensures var r := HandleShare(c, o, st, s, bytes, sender);
            && (bytes !in c.formats.shareParses ==> r == Returned(SetSigning(st, s, Sign3Initiated), Some(DeserializationError)))
            && (bytes in c.formats.shareParses && P.IdentifierOfPeer(o, st.peers, s, sender).Missing? ==>
                  r == Returned(SetSigning(st, s, Sign3Initiated), Some(IdentifierNotFound)))
  {
  }

  /** Aggregating panics exactly when the node's lookup does, or when its public key
      file or the signing package is missing; without an identifier nothing is
      aggregated. */
  lemma AggregationPanicsIff(c: Crypto, o: P.Orders, st: State, s: SessionId, shares: Packages)
    ensures var r, me, k := Aggregate(c, o, st, s, shares), P.IdentifierOfAccount(o, st.peers, s, st.validatorKey), (s, SigningPackage);
            && (r == Aborted <==>
                  me.Aborts? || (me.Found? && ((s, PubKey, me.id) !in st.keys || k !in st.store.data || !st.store.data[k].Package?)))
            && (me.Missing? ==> r == Returned(st, Some(IdentifierNotFound)))
  {
  }

  /** Finishing waits for the round-2 secret and for n - 1 packages, and a node
      without an identifier of its own gets no key. */
  lemma CompletionWaits(c: Crypto, o: P.Orders, st: State, s: SessionId)
    ensures var secret, r := Secret(st, s, DKGRound2SecretPackage), Complete(c, o, st, s);
            && (secret.None? ==> r == Returned(st, Some(Round2SecretPackageNotYetAvailable)))
            && (secret.Some? && r.Returned? && |D.Get(st.store, D.Round2, s)| < secret.value.maxSigners - 1 ==> r == Returned(st, None))
            && (r.Returned? && P.IdentifierOfAccount(o, st.peers, s, st.validatorKey).Missing? ==> r.st.keys == st.keys)
  {
  }

  // ---------------------------------------------------------------- who is who

  /** Once a validator's id and peer have been announced, in either order, that peer
      has that identifier in every session and in every traversal order. */
  lemma AnnouncedIsKnown(st: State, x: Stimulus, y: Stimulus, o: P.Orders, s: SessionId)
    requires x.event.ValidatorIdAssigned? && 0 < x.event.id <= 65535 && y.event.PeerAnnounced? && y.event.owner == x.event.account
    ensures Identifies(o, Run(st, [x, y]), s, y.event.peer, x.event.id) && Identifies(o, Run(st, [y, x]), s, y.event.peer, x.event.id)
  {
    TwoSteps(st, x, y);
    TwoSteps(st, y, x);
  }

  ghost predicate Identifies(o: P.Orders, end: Option<State>, s: SessionId, peer: PeerId, id: Identifier) {
    end.Some? && P.IdentifierOfPeer(o, end.value.peers, s, peer) == P.Found(id)
  }

  lemma TwoSteps(st: State, x: Stimulus, y: Stimulus)
    ensures Run(st, [x, y]) == Advance(Advance(Some(st), x), y)
  {
    assert [x, y][..1] == [x] && [x][..0] == [];
    assert Run(st, [x, y]) == Advance(Run(st, [x]), y);
    assert Run(st, [x]) == Advance(Run(st, []), x);
  }

  // ---------------------------------------------------------------- expiry

  /** A clean-up forgets the data, clock, states, buffer and identifiers of a session
      that is more than two hours old, keeps its packages, key files, indices and
      ECDSA phases, and leaves every other session as it is. */
  lemma CleanupPerSession(st: State, now: int, x: SessionId)
    ensures var b := Cleanup(st, now);
            && (x in st.stamps && now > st.stamps[x] + 7200 ==>
                  && x !in b.data && x !in b.stamps && x !in b.dkg && x !in b.signing && x !in b.buffer && x !in b.peers.byIdentifier)
            && (!(x in st.stamps && now > st.stamps[x] + 7200) ==> SameSession(st, b, x))
            && b.store == st.store && b.keys == st.keys && b.ecdsa == st.ecdsa && b.peers.byIndex == st.peers.byIndex
            && b.peers.peers == st.peers.peers && b.peers.validatorIds == st.peers.validatorIds
  {
  }

  // ---------------------------------------------------------------- creations

  /** Unusable numbers are refused without a trace; a participant without a usable
      identifier makes the node panic. */
  lemma CreationRefused(st: State, s: SessionId, x: Stimulus)
    requires x.event.DkgInfo? && x.event.s == s
    ensures var r, e := Step(st, x), x.event;
            var bad := e.t == 0 || e.t > e.n || |e.participants| != e.n;
            && (bad ==> r == Returned(st, Some(BadParameters)))
            && (!bad && P.AddParticipants(st.peers, s, e.participants).None? ==> r == Aborted)
  {
    CreationIs(st, x);
  }

  /** Otherwise the data and the clock are recorded, also when the node does not take
      part or the library cannot start; then nothing else happens. */
  lemma CreationRecords(st: State, s: SessionId, x: Stimulus)
    requires x.event.DkgInfo? && x.event.s == s && 1 <= x.event.t <= x.event.n == |x.event.participants|
    requires P.AddParticipants(st.peers, s, x.event.participants).Some?
    requires st.validatorKey !in x.event.participants || (x.event.t, x.event.n) !in x.crypto.part1
    ensures var e := x.event;
            Step(st, x) == Returned(
              st.(data := st.data[s := SessionData(e.t, e.n, NOBODY, "")], stamps := st.stamps[s := x.now],
                  peers := P.AddParticipants(st.peers, s, e.participants).value),
              Some(if st.validatorKey !in e.participants then NotAuthorized else Round1GenerationFailed))
  {
    CreationIs(st, x);
    CreateDkgStarts(x.crypto, x.orders, st, x.now, s, x.event.t, x.event.n, x.event.participants, x.depth);
  }

  /** A reshare session only records its data and, for a participant, opens its ECDSA
      phase; it has no state in the key generation of this manager. */
  lemma ReshareRecords(st: State, s: SessionId, x: Stimulus)
    requires x.event.ReshareInfo? && x.event.s == s && 1 <= x.event.t <= x.event.n == |x.event.participants|
    requires P.AddParticipants(st.peers, s, x.event.participants).Some?
    ensures var r, e := Step(st, x), x.event;
            && r.Returned? && r.error.None?
            && r.st == st.(data := st.data[s := SessionData(e.t, e.n, NOBODY, "")], stamps := st.stamps[s := x.now],
                           peers := P.AddParticipants(st.peers, s, e.participants).value, ecdsa := r.st.ecdsa)
            && IsOpened(st.ecdsa, r.st.ecdsa, (E.Reshare, s), st.validatorKey in e.participants && (E.Reshare, s) in x.crypto.createsPhase)
  {
    ReshareIs(st, x);
    PhaseOpens(x.crypto, Added(st, x.now, s, SessionData(x.event.t, x.event.n, NOBODY, ""), x.event.participants), (E.Reshare, s));
  }

  lemma ReshareIs(st: State, x: Stimulus)
    requires x.event.ReshareInfo?
    ensures Step(st, x) == CreateReshare(x.crypto, st, x.now, x.event.s, x.event.t, x.event.n, x.event.participants)
  {
  }

  /** The phase is new if it was opened; nothing else changes, buffers least. */
  ghost predicate IsOpened(a: E.State, b: E.State, slot: E.Slot, created: bool) {
    && b.buffers == a.buffers
    && (created ==> slot in b.phases && b.phases[slot] == [])
    && (forall other :: (other != slot || !created) ==> Look(a.phases, other) == Look(b.phases, other))
  }

  lemma PhaseOpens(c: Crypto, st: State, slot: E.Slot)
    ensures WithPhase(c, st, slot) == st.(ecdsa := WithPhase(c, st, slot).ecdsa)
    ensures IsOpened(st.ecdsa, WithPhase(c, st, slot).ecdsa, slot, slot in c.createsPhase)
  {
  }

  /** A phase that becomes ready is opened if the library can. */
  lemma ReadyPhaseOpens(st: State, x: Stimulus)
    requires x.event.PhaseReady?
    ensures var r, slot := Step(st, x), (x.event.kind, x.event.s);
            && r.Returned? && r.st == st.(ecdsa := r.st.ecdsa)
            && IsOpened(st.ecdsa, r.st.ecdsa, slot, slot in x.crypto.createsPhase)
  {
    PhaseOpens(x.crypto, st, (x.event.kind, x.event.s));
  }

  // ---------------------------------------------------------------- ECDSA messages

  /** An ECDSA message of a live session reaches its phase behind the buffered ones;
      what that means is said by `ReplayedFirst`. A node without an index in the
      session ignores it, and so does everybody for reshare messages. */
  lemma EcdsaMessageFollows(st: State, x: Stimulus, slot: E.Slot, m: E.Message) returns (n: nat)
    requires x.event.GossipEvent? && x.event.s in st.data && !TimedOut(st, x.event.s, x.now) && x.event.message.EcdsaMessage?
    requires slot == (x.event.message.kind, x.event.s) && m == (x.event.message.index, x.event.message.bytes)
    ensures var r, deaf := Step(st, x), P.IndexOfPeer(x.orders, st.peers, x.event.s, st.localPeer).None? || slot.0 == E.Reshare;
            && r.Returned? && r.st == st.(ecdsa := r.st.ecdsa)
            && (deaf ==> r.st == st)
            && n <= |E.Buffer(st.ecdsa, slot)|
            && (!deaf && slot in st.ecdsa.phases ==>
                  slot in r.st.ecdsa.phases && r.st.ecdsa.phases[slot] == st.ecdsa.phases[slot] + E.Buffer(st.ecdsa, slot)[..n] + [m])
            && (!deaf && slot !in st.ecdsa.phases ==>
                  E.Buffer(r.st.ecdsa, slot) == E.Buffer(st.ecdsa, slot) + E.Buffer(st.ecdsa, slot)[..n] + [m])
            && (slot in st.ecdsa.phases && E.Replay(x.crypto.library, st.ecdsa, slot).1 ==> n == |E.Buffer(st.ecdsa, slot)|)
  {
    n := E.ReplayedFirst(x.crypto.library, st.ecdsa, slot, m);
    EcdsaStepIs(st, x);
  }

  lemma EcdsaStepIs(st: State, x: Stimulus)
    requires x.event.GossipEvent? && x.event.s in st.data && !TimedOut(st, x.event.s, x.now) && x.event.message.EcdsaMessage?
    ensures var m := x.event.message;
            Step(st, x) == Returned(GossipEcdsa(x.crypto, x.orders, st, x.event.s, m.kind, (m.index, m.bytes)), None)
  {
  }

  /** With the creation of a key generation its ECDSA phase is opened. */
  lemma KeygenPhaseOpens(c: Crypto, st: State, now: int, s: SessionId, t: nat, n: nat, participants: seq<Account>, ms: seq<(PeerId, Message)>)
    requires P.AddParticipants(st.peers, s, participants).Some?
    ensures IsOpened(st.ecdsa, Opened(c, st, now, s, t, n, participants, ms).ecdsa, (E.Keygen, s), (E.Keygen, s) in c.createsPhase)
  {
    var begun := Begun(Added(Kept(st, s, ms), now, s, SessionData(t, n, NOBODY, ""), participants), s, t, n);
    assert begun.ecdsa == st.ecdsa;
    PhaseOpens(c, begun, (E.Keygen, s));
  }

  /** With the creation of a signing session its online phase is opened, if the
      offline output is there. */
  lemma OnlinePhaseOpens(st: State, s: SessionId, x: Stimulus)
    requires CanSign(st, s, x)
    requires var mine := LastPosition(x.event.participants, st.validatorKey);
             mine.Some? && (s, Key, mine.value + 1) in st.keys && st.keys[(s, Key, mine.value + 1)].KeyPackage?
    ensures var r := Step(st, x);
            && r.Returned?
            && IsOpened(st.ecdsa, r.st.ecdsa, (E.SignOnline, s), x.event.offline && (E.SignOnline, s) in x.crypto.createsPhase)
  {
    var d, participants := x.event.d, x.event.participants;
    SigningStepIs(st, s, x);
    CreateSigningStarts(x.crypto, x.orders, st, x.now, s, d, participants, x.event.offline);
    P.CreationSucceedsIff(st.peers, s, participants);
    StartCommits(x.orders, st, x.now, s, d, participants);
    var r := StartSigning(x.orders, Added(st, x.now, s, d, participants), s, participants, d.coordinator);
    assert r.st.ecdsa == st.ecdsa;
    PhaseOpens(x.crypto, r.st, (E.SignOnline, s));
  }
}
