/** When finishing key generation returns at all.

    Finishing replays the buffered round-2 messages, replaying one of them tries
    to finish again, and the buffer is never drained. This module decides exactly
    for which buffers that recursion ends. */
module SessionReplay {
  import opened Prelude
  import opened FileNames
  import opened Sessions
  import opened SessionLocality
  import D = DkgStorage
  import P = PeerMapping

  /** What one buffered message does when it is replayed in round 2. */
  datatype Effect = Ignored | Reenters | Panics

  function EffectOf(c: Crypto, o: P.Orders, st: State, s: SessionId, entry: (PeerId, Message)): Effect {
    var (sender, m) := entry;
    if !m.DkgRound2? || m.recipient != st.localPeer then Ignored
    else
      match P.IdentifierOfPeer(o, st.peers, s, sender)
      case Aborts => Panics
      case Missing => Ignored
      case Found(_) => if m.bytes in c.formats.round2Parses then Reenters else Ignored
  }

  /** The first message that is not ignored decides. */
  function Verdict(c: Crypto, o: P.Orders, st: State, s: SessionId, ms: seq<(PeerId, Message)>): Effect {
    if ms == [] then Ignored
    else if EffectOf(c, o, st, s, ms[0]) != Ignored then EffectOf(c, o, st, s, ms[0])
    else Verdict(c, o, st, s, ms[1..])
  }

  predicate InRound2(st: State, s: SessionId) {
    DkgOf(st, s).Rank() >= Round2Initiated.Rank()
  }

  lemma {:induction false} SameVerdict(c: Crypto, o: P.Orders, a: State, b: State, s: SessionId, ms: seq<(PeerId, Message)>)
    requires a.localPeer == b.localPeer && a.peers == b.peers
    ensures Verdict(c, o, a, s, ms) == Verdict(c, o, b, s, ms)
  {
    if ms != [] {
      SameVerdict(c, o, a, b, s, ms[1..]);
    }
  }

  /** An ignored message leaves no trace. */
  lemma IgnoredIsHandled(c: Crypto, o: P.Orders, st: State, s: SessionId, entry: (PeerId, Message), depth: nat)
    requires InRound2(st, s) && entry.1.DkgRound2?
    ensures var r := HandleRound2(c, o, st, s, entry.1.bytes, entry.1.recipient, entry.0, depth);
            match EffectOf(c, o, st, s, entry)
            case Ignored => r.Returned? && r.st == st
            case Panics => r == Aborted
            case Reenters =>
              var id := P.IdentifierOfPeer(o, st.peers, s, entry.0);
              id.Found? && (VerifyAndComplete(c, o, Stored(st, D.Round2, s, id.id, entry.1.bytes), s, depth) == TooDeep ==> r == TooDeep)
  {
  }

  /** If the buffer decides for re-entry, replay exceeds every call depth. */
  lemma {:induction false} ReplayNeverReturns(c: Crypto, o: P.Orders, st: State, s: SessionId, ms: seq<(PeerId, Message)>, depth: nat)
    requires InRound2(st, s)
    requires Verdict(c, o, st, s, ms) == Reenters && Verdict(c, o, st, s, Waiting(st, s)) == Reenters
    ensures ReplayRound2(c, o, st, s, ms, depth) == TooDeep
    decreases depth, |ms|
  {
    var (sender, m) := ms[0];
    if m.DkgRound2? {
      IgnoredIsHandled(c, o, st, s, ms[0], depth);
    }
    if EffectOf(c, o, st, s, ms[0]) == Ignored {
      ReplayNeverReturns(c, o, st, s, ms[1..], depth);
    } else {
      var id := P.IdentifierOfPeer(o, st.peers, s, sender).id;
      var st1 := Stored(st, D.Round2, s, id, m.bytes);
      if depth > 0 {
        SameVerdict(c, o, st, Touched(st1, s), s, Waiting(st, s));
        ReplayNeverReturns(c, o, Touched(st1, s), s, Waiting(st, s), depth - 1);
      }
      assert VerifyAndComplete(c, o, st1, s, depth) == TooDeep;
    }
  }

  /** Otherwise replay ends without nesting, whatever the depth. */
  lemma {:induction false} ReplayReturns(c: Crypto, o: P.Orders, st: State, s: SessionId, ms: seq<(PeerId, Message)>, depth: nat)
    requires InRound2(st, s) && Verdict(c, o, st, s, ms) != Reenters
    ensures ReplayRound2(c, o, st, s, ms, depth) == if Verdict(c, o, st, s, ms) == Panics then Aborted else Returned(st, None)
    decreases |ms|
  {
    if ms != [] {
      if ms[0].1.DkgRound2? {
        IgnoredIsHandled(c, o, st, s, ms[0], depth);
      }
      if EffectOf(c, o, st, s, ms[0]) == Ignored {
        ReplayReturns(c, o, st, s, ms[1..], depth);
      }
    }
  }

  /** Finishing returns or panics at some call depth if and only if the buffer
      does not decide for re-entry; and then depth one is enough and larger depths
      give the same result. */
  lemma CompletionReturnsIff(c: Crypto, o: P.Orders, st: State, s: SessionId, depth: nat)
    requires InRound2(st, s)
    ensures if Verdict(c, o, st, s, Waiting(st, s)) == Reenters
            then VerifyAndComplete(c, o, st, s, depth) == TooDeep
            else depth > 0 ==> VerifyAndComplete(c, o, st, s, depth) == VerifyAndComplete(c, o, st, s, 1) != TooDeep
  {
    var st1 := Touched(st, s);
    SameVerdict(c, o, st, st1, s, Waiting(st, s));
    if Verdict(c, o, st, s, Waiting(st, s)) == Reenters {
      if depth > 0 {
        ReplayNeverReturns(c, o, st1, s, Waiting(st, s), depth - 1);
      }
    } else {
      ReplayReturns(c, o, st1, s, Waiting(st, s), 0);
      if depth > 0 {
        ReplayReturns(c, o, st1, s, Waiting(st, s), depth - 1);
      }
    }
  }

  lemma {:induction false} VerdictOfLonger(c: Crypto, o: P.Orders, st: State, s: SessionId, ms: seq<(PeerId, Message)>, entry: (PeerId, Message))
    ensures Verdict(c, o, st, s, ms + [entry]) ==
            if Verdict(c, o, st, s, ms) != Ignored then Verdict(c, o, st, s, ms) else EffectOf(c, o, st, s, entry)
  {
    if ms == [] {
      assert ms + [entry] == [entry] && [entry][1..] == [];
    } else {
      VerdictOfLonger(c, o, st, s, ms[1..], entry);
      assert (ms + [entry])[1..] == ms[1..] + [entry];
    }
  }

  // ---------------------------------------------------------------- the fate of a buffer

  /** The effect of an entry does not depend on the order in which a hash map is
      traversed: it is decided by the announced account of the sender, its
      validator id and whether the session has the account as a participant. */
  function FateOf(f: Formats, st: State, s: SessionId, entry: (PeerId, Message)): Effect {
    var (sender, m) := entry;
    if !m.DkgRound2? || m.recipient != st.localPeer || sender !in st.peers.peers then Ignored
    else
      var a := st.peers.peers[sender];
      if a in st.peers.validatorIds && st.peers.validatorIds[a] == 0 then Panics
      else if m.bytes in f.round2Parses && (a in st.peers.validatorIds || a in P.IdentifierTable(st.peers, s).Values) then Reenters
      else Ignored
  }

  function Fate(f: Formats, st: State, s: SessionId, ms: seq<(PeerId, Message)>): Effect {
    if ms == [] then Ignored
    else if FateOf(f, st, s, ms[0]) != Ignored then FateOf(f, st, s, ms[0])
    else Fate(f, st, s, ms[1..])
  }

  lemma EffectIsFate(c: Crypto, o: P.Orders, st: State, s: SessionId, entry: (PeerId, Message))
    requires o.Valid()
    ensures EffectOf(c, o, st, s, entry) == FateOf(c.formats, st, s, entry)
  {
    if entry.0 in st.peers.peers {
      var table := P.IdentifierTable(st.peers, s);
      P.FirstWithFinds(o.numbers(table), table, st.peers.peers[entry.0]);
      assert forall id :: id in table ==> id in Elems(o.numbers(table));
    }
  }

  lemma {:induction false} VerdictIsFate(c: Crypto, o: P.Orders, st: State, s: SessionId, ms: seq<(PeerId, Message)>)
    requires o.Valid()
    ensures Verdict(c, o, st, s, ms) == Fate(c.formats, st, s, ms)
  {
    if ms != [] {
      EffectIsFate(c, o, st, s, ms[0]);
      VerdictIsFate(c, o, st, s, ms[1..]);
    }
  }

  /** Entries behind the deciding one, and changes elsewhere, do not matter. */
  lemma {:induction false} FateStays(f: Formats, a: State, b: State, s: SessionId, ms: seq<(PeerId, Message)>, more: seq<(PeerId, Message)>)
    requires a.localPeer == b.localPeer && a.peers.peers == b.peers.peers && a.peers.validatorIds == b.peers.validatorIds
    requires P.IdentifierTable(a.peers, s) == P.IdentifierTable(b.peers, s)
    requires ms <= more && Fate(f, a, s, ms) != Ignored
    ensures Fate(f, b, s, more) == Fate(f, a, s, ms)
  {
    assert ms[0] == more[0] && FateOf(f, a, s, ms[0]) == FateOf(f, b, s, more[0]);
    if FateOf(f, a, s, ms[0]) == Ignored {
      FateStays(f, a, b, s, ms[1..], more[1..]);
    }
  }

  lemma {:induction false} FateOfLonger(f: Formats, st: State, s: SessionId, ms: seq<(PeerId, Message)>, entry: (PeerId, Message))
    ensures Fate(f, st, s, ms + [entry]) == if Fate(f, st, s, ms) != Ignored then Fate(f, st, s, ms) else FateOf(f, st, s, entry)
  {
    if ms == [] {
      assert ms + [entry] == [entry] && [entry][1..] == [];
    } else {
      FateOfLonger(f, st, s, ms[1..], entry);
      assert (ms + [entry])[1..] == ms[1..] + [entry];
    }
  }

  // ---------------------------------------------------------------- blocked sessions

  /** Replaying the buffer of s would never return. */
  predicate Blocked(f: Formats, st: State, s: SessionId) {
    Fate(f, st, s, Waiting(st, s)) == Reenters
  }

  predicate ShortOfRound2(st: State, s: SessionId) {
    !InRound2(st, s) || DkgOf(st, s) == DkgFailed
  }

  lemma BlockedNeverCompletes(c: Crypto, o: P.Orders, st: State, s: SessionId, depth: nat)
    requires o.Valid() && InRound2(st, s) && Blocked(c.formats, st, s)
    ensures VerifyAndComplete(c, o, st, s, depth) == TooDeep
  {
    VerdictIsFate(c, o, st, s, Waiting(st, s));
    CompletionReturnsIff(c, o, st, s, depth);
  }

  /** A usable round-2 package that arrives ahead of round 2 blocks the session. */
  lemma EarlyRound2Blocks(c: Crypto, o: P.Orders, st: State, now: int, s: SessionId, sender: PeerId, m: Message, depth: nat)
    requires s in st.data && !TimedOut(st, s, now) && !InRound2(st, s)
    requires FateOf(c.formats, st, s, (sender, m)) == Reenters && Fate(c.formats, st, s, Waiting(st, s)) != Panics
    ensures Gossip(c, o, st, now, s, sender, m, depth) == Returned(Buffered(st, s, sender, m), None)
    ensures Blocked(c.formats, Buffered(st, s, sender, m), s)
  {
    var ms, st1 := Waiting(st, s) + [(sender, m)], Buffered(st, s, sender, m);
    EarlyRound2IsBuffered(c, o, st, now, s, sender, m, depth);
    FateOfLonger(c.formats, st, s, Waiting(st, s), (sender, m));
    FateStays(c.formats, st, st1, s, ms, ms);
  }

  lemma EarlyRound2IsBuffered(c: Crypto, o: P.Orders, st: State, now: int, s: SessionId, sender: PeerId, m: Message, depth: nat)
    requires s in st.data && !TimedOut(st, s, now) && !InRound2(st, s) && m.DkgRound2?
    ensures Gossip(c, o, st, now, s, sender, m, depth) == Returned(Buffered(st, s, sender, m), None)
  {
  }

  /** A step after which s is still blocked. */
  ghost predicate StaysBlocked(a: State, b: State, s: SessionId) {
    && a.localPeer == b.localPeer && a.peers.peers == b.peers.peers && a.peers.validatorIds == b.peers.validatorIds
    && P.IdentifierTable(a.peers, s) == P.IdentifierTable(b.peers, s)
    && Look(a.stamps, s) == Look(b.stamps, s)
    && Waiting(a, s) <= Waiting(b, s) && ShortOfRound2(b, s)
  }

  lemma StaysBlockedKeeps(f: Formats, a: State, b: State, s: SessionId)
    requires Blocked(f, a, s) && StaysBlocked(a, b, s)
    ensures Blocked(f, b, s)
  {
    FateStays(f, a, b, s, Waiting(a, s), Waiting(b, s));
  }

  lemma BlockedStart(c: Crypto, o: P.Orders, st: State, s: SessionId, secret: D.Blob, packages: Packages, depth: nat)
    requires o.Valid() && Blocked(c.formats, st, s)
    ensures StartRound2(c, o, st, s, secret, packages, depth) ==
              if (secret, packages) in c.part2 then TooDeep else Returned(SetDkg(st, s, DkgFailed), None)
  {
    var st1 := SetDkg(StoredData(st, s, DKGRound2SecretPackage, secret), s, Round2Initiated);
    FateStays(c.formats, st, st1, s, Waiting(st, s), Waiting(st, s));
    BlockedNeverCompletes(c, o, st1, s, depth);
  }

  lemma BlockedVerify1(c: Crypto, o: P.Orders, st: State, s: SessionId, depth: nat)
    requires o.Valid() && Blocked(c.formats, st, s)
    ensures var r := VerifyRound1(c, o, st, s, depth); r.Returned? ==> r.st == st || r.st == SetDkg(st, s, DkgFailed)
  {
    var secret, packages := Secret(st, s, DKGRound1SecretPackage), D.Fetch(st.store, D.Round1, s, c.formats.round1Parses);
    if secret.Some? && packages.Some? {
      BlockedStart(c, o, st, s, secret.value, packages.value, depth);
    }
  }

  lemma FailedStays(st: State, s: SessionId, st1: State)
    requires ShortOfRound2(st, s) && (st1 == st || st1 == SetDkg(st, s, DkgFailed))
    ensures StaysBlocked(st, st1, s)
  {
  }

  lemma BlockedRound1(c: Crypto, o: P.Orders, st: State, s: SessionId, bytes: Bytes, sender: PeerId, depth: nat)
    requires o.Valid() && Blocked(c.formats, st, s) && ShortOfRound2(st, s)
    ensures var r := HandleRound1(c, o, st, s, bytes, sender, depth); r.Returned? ==> StaysBlocked(st, r.st, s)
  {
    FailedStays(st, s, st);
    var id := P.IdentifierOfPeer(o, st.peers, s, sender);
    if id.Found? {
      var st1 := Stored(st, D.Round1, s, id.id, bytes);
      StoredStays(c.formats, st, D.Round1, s, id.id, bytes);
      BlockedVerify1(c, o, st1, s, depth);
      FailedStays(st1, s, st1);
      FailedStays(st1, s, SetDkg(st1, s, DkgFailed));
    }
  }

  lemma StoredStays(f: Formats, st: State, shelf: D.Shelf, s: SessionId, id: Identifier, bytes: Bytes)
    requires Blocked(f, st, s) && ShortOfRound2(st, s)
    ensures var st1 := Stored(st, shelf, s, id, bytes);
            Blocked(f, st1, s) && ShortOfRound2(st1, s) && forall b :: StaysBlocked(st1, b, s) ==> StaysBlocked(st, b, s)
  {
    var st1 := Stored(st, shelf, s, id, bytes);
    FateStays(f, st, st1, s, Waiting(st, s), Waiting(st, s));
  }

  lemma BlockedRound2(c: Crypto, o: P.Orders, st: State, s: SessionId, bytes: Bytes, recipient: PeerId, sender: PeerId, depth: nat)
    requires o.Valid() && Blocked(c.formats, st, s) && ShortOfRound2(st, s)
    ensures var r := HandleRound2(c, o, st, s, bytes, recipient, sender, depth); r.Returned? ==> r.st == st
  {
    var id := P.IdentifierOfPeer(o, st.peers, s, sender);
    if InRound2(st, s) && id.Found? {
      var st1 := Stored(st, D.Round2, s, id.id, bytes);
      FateStays(c.formats, st, st1, s, Waiting(st, s), Waiting(st, s));
      BlockedNeverCompletes(c, o, st1, s, depth);
    }
  }

  /** Signing messages leave alone what key generation and the buffer need. */
  ghost predicate SameDkg(a: State, b: State) {
    a.localPeer == b.localPeer && a.peers == b.peers && a.stamps == b.stamps && a.buffer == b.buffer && a.dkg == b.dkg
  }

  lemma PackagingLeavesDkg(c: Crypto, st: State, s: SessionId)
    ensures var r := VerifyCommitments(c, st, s); r.Returned? ==> SameDkg(st, r.st)
  {
  }

  lemma CommitmentLeavesDkg(c: Crypto, o: P.Orders, st: State, now: int, s: SessionId, bytes: Bytes, sender: PeerId)
    ensures var r := HandleCommitment(c, o, st, now, s, bytes, sender); r.Returned? ==> SameDkg(st, r.st)
  {
    var id := P.IdentifierOfPeer(o, st.peers, s, sender);
    if id.Found? {
      var st1 := Stored(st, D.Commitments, s, id.id, bytes);
      assert SameDkg(st, st1);
      PackagingLeavesDkg(c, st1, s);
    }
  }

  lemma PackageLeavesDkg(c: Crypto, o: P.Orders, st: State, s: SessionId, bytes: Bytes)
    ensures var r := HandleSigningPackage(c, o, st, s, bytes); r.Returned? ==> SameDkg(st, r.st)
  {
    var st1 := SetSigning(st, s, Sign2Initiated);
    assert SameDkg(st, st1) && SameDkg(st, SetSigning(st1, s, Sign2Completed));
  }

  lemma AggregateLeavesDkg(c: Crypto, o: P.Orders, st: State, s: SessionId, shares: Packages)
    ensures var r := Aggregate(c, o, st, s, shares); r.Returned? ==> SameDkg(st, r.st)
  {
    assert SameDkg(st, SetSigning(st, s, SigningFailed)) && SameDkg(st, SetSigning(st, s, SignatureGenerated));
  }

  lemma ShareLeavesDkg(c: Crypto, o: P.Orders, st: State, s: SessionId, bytes: Bytes, sender: PeerId)
    ensures var r := HandleShare(c, o, st, s, bytes, sender); r.Returned? ==> SameDkg(st, r.st)
  {
    var st1 := SetSigning(st, s, Sign3Initiated);
    assert SameDkg(st, st1);
    var id := P.IdentifierOfPeer(o, st1.peers, s, sender);
    if bytes in c.formats.shareParses && id.Found? {
      var st2 := Stored(st1, D.Shares, s, id.id, bytes);
      assert SameDkg(st, st2);
      var shares := D.Fetch(st2.store, D.Shares, s, c.formats.shareParses);
      if shares.Some? {
        AggregateLeavesDkg(c, o, st2, s, shares.value);
      }
    }
  }

  lemma SameDkgStays(a: State, b: State, s: SessionId)
    requires SameDkg(a, b) && ShortOfRound2(a, s)
    ensures StaysBlocked(a, b, s)
  {
  }

  lemma BufferedStays(a: State, b: State, s: SessionId, sender: PeerId, m: Message)
    requires StaysBlocked(a, b, s)
    ensures StaysBlocked(a, Buffered(b, s, sender, m), s)
  {
  }

  lemma DkgGossipStaysBlocked(c: Crypto, o: P.Orders, st: State, now: int, s: SessionId, sender: PeerId, m: Message, depth: nat)
    requires o.Valid() && Blocked(c.formats, st, s) && ShortOfRound2(st, s) && (m.DkgRound1? || m.DkgRound2?)
    ensures var r := Gossip(c, o, st, now, s, sender, m, depth); r.Returned? ==> StaysBlocked(st, r.st, s)
  {
    SameDkgStays(st, st, s);
    BufferedStays(st, st, s, sender, m);
    match m
    case DkgRound1(bytes) =>
      BlockedRound1(c, o, st, s, bytes, sender, depth);
      var r := HandleRound1(c, o, st, s, bytes, sender, depth);
      if r.Returned? {
        BufferedStays(st, r.st, s, sender, m);
      }
    case DkgRound2(bytes, recipient) =>
      BlockedRound2(c, o, st, s, bytes, recipient, sender, depth);
  }

  lemma SigningGossipLeavesDkg(c: Crypto, o: P.Orders, st: State, now: int, s: SessionId, sender: PeerId, m: Message, depth: nat)
    requires !m.DkgRound1? && !m.DkgRound2?
    ensures var r := Gossip(c, o, st, now, s, sender, m, depth); r.Returned? ==> SameDkg(st, r.st)
  {
    assert SameDkg(st, st);
    match m
    case SigningCommitment(bytes) => CommitmentLeavesDkg(c, o, st, now, s, bytes, sender);
    case SigningPackageFor(bytes) => PackageLeavesDkg(c, o, st, s, bytes);
    case SigningShare(bytes) => ShareLeavesDkg(c, o, st, s, bytes, sender);
    case EcdsaMessage(_, _, _) =>
  }

  lemma GossipStaysBlocked(c: Crypto, o: P.Orders, st: State, now: int, s: SessionId, sender: PeerId, m: Message, depth: nat)
    requires o.Valid() && Blocked(c.formats, st, s) && ShortOfRound2(st, s)
    ensures var r := Gossip(c, o, st, now, s, sender, m, depth); r.Returned? ==> StaysBlocked(st, r.st, s)
  {
    if m.DkgRound1? || m.DkgRound2? {
      DkgGossipStaysBlocked(c, o, st, now, s, sender, m, depth);
    } else {
      SigningGossipLeavesDkg(c, o, st, now, s, sender, m, depth);
      var r := Gossip(c, o, st, now, s, sender, m, depth);
      if r.Returned? {
        SameDkgStays(st, r.st, s);
      }
    }
  }

  /** An event that neither creates s, nor forgets it, nor changes who is who. */
  ghost predicate Calm(f: Formats, stamp: Option<int>, s: SessionId, x: Stimulus) {
    && x.orders.Valid() && x.crypto.formats == f
    && match x.event
       case GossipEvent(_, _, _) => true
       case DkgInfo(other, _, _, _) => other != s
       case ReshareInfo(other, _, _, _) => other != s
       case SigningInfo(other, _, _, _) => other != s
       case PhaseReady(_, _) => true
       case ValidatorIdAssigned(_, _) => false
       case PeerAnnounced(_, _) => false
       case CleanupTick => stamp.Some? ==> x.now - stamp.value <= SESSION_TIMEOUT
  }

  lemma ElsewhereStays(a: State, b: State, s: SessionId, other: SessionId)
    requires OnlyTouches(a, b, other) && s != other && ShortOfRound2(a, s)
    ensures StaysBlocked(a, b, s)
  {
    assert SameSession(a, b, s);
    assert Look(a.buffer, s) == Look(b.buffer, s) && Look(a.dkg, s) == Look(b.dkg, s);
    assert Look(a.peers.byIdentifier, s) == Look(b.peers.byIdentifier, s);
  }

  lemma CleanupStays(st: State, now: int, s: SessionId)
    requires !TimedOut(st, s, now) && ShortOfRound2(st, s)
    ensures StaysBlocked(st, Cleanup(st, now), s)
  {
  }

  lemma StepStaysBlocked(f: Formats, st: State, s: SessionId, x: Stimulus)
    requires Blocked(f, st, s) && ShortOfRound2(st, s) && Calm(f, Look(st.stamps, s), s, x) && Step(st, x).Returned?
    ensures StaysBlocked(st, Step(st, x).st, s)
  {
    var own := SessionOf(x.event);
    if own.Some? && own.value != s {
      StepIsLocal(st, x);
      ElsewhereStays(st, Step(st, x).st, s, own.value);
    } else {
      OwnStepStaysBlocked(f, st, s, x);
    }
  }

  lemma OwnStepStaysBlocked(f: Formats, st: State, s: SessionId, x: Stimulus)
    requires Blocked(f, st, s) && ShortOfRound2(st, s) && Calm(f, Look(st.stamps, s), s, x) && Step(st, x).Returned?
    requires SessionOf(x.event).Some? ==> SessionOf(x.event).value == s
    ensures StaysBlocked(st, Step(st, x).st, s)
  {
    if x.event.GossipEvent? {
      GossipStaysBlocked(x.crypto, x.orders, st, x.now, s, x.event.sender, x.event.message, x.depth);
    } else if x.event.CleanupTick? {
      CleanupStays(st, x.now, s);
    } else {
      assert x.event.PhaseReady?;
      SameDkgStays(st, WithPhase(x.crypto, st, (x.event.kind, s)), s);
    }
  }

  /** Blocked since the session was last created, at time `stamp`. */
  ghost predicate Inert(f: Formats, st: State, s: SessionId, stamp: Option<int>) {
    Blocked(f, st, s) && ShortOfRound2(st, s) && Look(st.stamps, s) == stamp
  }

  lemma InertNext(f: Formats, before: Option<State>, s: SessionId, stamp: Option<int>, x: Stimulus)
    requires (before.Some? ==> Inert(f, before.value, s, stamp)) && Calm(f, stamp, s, x)
    ensures Advance(before, x).Some? ==> Inert(f, Advance(before, x).value, s, stamp)
  {
    if Advance(before, x).Some? {
      StepStaysBlocked(f, before.value, s, x);
      StaysBlockedKeeps(f, before.value, Step(before.value, x).st, s);
    }
  }

  /** And it stays blocked: whatever calm events follow, as long as every handler
      returns, the session never gets to round 2. */
  lemma {:induction false} BlockedForever(f: Formats, st: State, s: SessionId, stamp: Option<int>, run: seq<Stimulus>)
    requires Inert(f, st, s, stamp) && forall i :: 0 <= i < |run| ==> Calm(f, stamp, s, run[i])
    ensures Run(st, run).Some? ==> Inert(f, Run(st, run).value, s, stamp)
    decreases |run|
  {
    if run != [] {
      var k := |run| - 1;
      BlockedForever(f, st, s, stamp, run[..k]);
      InertNext(f, Run(st, run[..k]), s, stamp, run[k]);
    }
  }

  /** Together: after an early round-2 package no calm run ends with a key. */
  lemma EarlyRound2NeverFinishes(st: State, s: SessionId, x: Stimulus, run: seq<Stimulus>)
    requires x.event.GossipEvent? && x.event.s == s && s in st.data && !TimedOut(st, s, x.now) && !InRound2(st, s)
    requires FateOf(x.crypto.formats, st, s, (x.event.sender, x.event.message)) == Reenters
    requires Fate(x.crypto.formats, st, s, Waiting(st, s)) != Panics
    requires forall i :: 0 <= i < |run| ==> Calm(x.crypto.formats, Look(st.stamps, s), s, run[i])
    ensures var end := Run(st, [x] + run);
            end.Some? ==> ShortOfRound2(end.value, s) && DkgOf(end.value, s) != KeyGenerated
  {
    var f, stamp, st1 := x.crypto.formats, Look(st.stamps, s), Buffered(st, s, x.event.sender, x.event.message);
    EarlyRound2IsInert(st, s, x);
    InertAfter(f, st, [x], st1, s, stamp, run);
    if Run(st, [x] + run).Some? {
      InertHasNoKey(f, Run(st, [x] + run).value, s, stamp);
    }
  }

  lemma InertAfter(f: Formats, st: State, before: seq<Stimulus>, st1: State, s: SessionId, stamp: Option<int>, run: seq<Stimulus>)
    requires Run(st, before) == Some(st1) && Inert(f, st1, s, stamp)
    requires forall i :: 0 <= i < |run| ==> Calm(f, stamp, s, run[i])
    ensures Run(st, before + run).Some? ==> Inert(f, Run(st, before + run).value, s, stamp)
  {
    RunSplit(st, before, run);
    BlockedForever(f, st1, s, stamp, run);
  }

  lemma InertHasNoKey(f: Formats, st: State, s: SessionId, stamp: Option<int>)
    requires Inert(f, st, s, stamp)
    ensures ShortOfRound2(st, s) && DkgOf(st, s) != KeyGenerated
  {
  }

  lemma EarlyRound2IsInert(st: State, s: SessionId, x: Stimulus)
    requires x.event.GossipEvent? && x.event.s == s && s in st.data && !TimedOut(st, s, x.now) && !InRound2(st, s)
    requires FateOf(x.crypto.formats, st, s, (x.event.sender, x.event.message)) == Reenters
    requires Fate(x.crypto.formats, st, s, Waiting(st, s)) != Panics
    ensures var st1 := Buffered(st, s, x.event.sender, x.event.message);
            Run(st, [x]) == Some(st1) && Inert(x.crypto.formats, st1, s, Look(st.stamps, s))
  {
    EarlyRound2Blocks(x.crypto, x.orders, st, x.now, s, x.event.sender, x.event.message, x.depth);
    RunNext(st, [x], st);
  }
}
