/** The pin lifecycle of pallets/ipfs.

    Users pin agents and files, validators report which files they hold, and an
    inherent that runs once per block marks files usable and drops expired ones.
    The block author proposes the inherent; every other node recomputes it. */
module IpfsPins {
  import opened Prelude

  type Cid = string
  type NftId = nat
  type Account = nat

  const U32_MAX: nat := 0xFFFF_FFFF
  /** MinExpireDuration: blocks in a day. */
  const MIN_DURATION: nat := 28800

  type BlockNumber = n: nat | n <= U32_MAX

  /** A zero expiry marks a persistent pin, a zero `usableFrom` one that is not
      usable yet. Reading a CID without an entry yields the all-zero status. */
  datatype Status = Status(expiresAt: nat, usableFrom: nat)

  type Entry = (Cid, Status)

  datatype State = State(cids: map<Cid, Status>, pins: set<(Cid, Account)>, agents: map<NftId, Cid>)

  const EMPTY := State(map[], {}, map[])

  function Get(st: State, cid: Cid): Status {
    if cid in st.cids then st.cids[cid] else Status(0, 0)
  }

  function Later(block: BlockNumber, duration: nat): BlockNumber {
    if block + duration <= U32_MAX then block + duration else U32_MAX
  }

  function Saturated(x: nat): BlockNumber {
    if x <= U32_MAX then x else U32_MAX
  }

  // ---------------------------------------------------------------- user and validator calls

  /** Repinning an agent gives its old file one more day; pinning the same file
      again is an error. */
  function PinAgent(st: State, block: BlockNumber, cid: Cid, nft: NftId): Option<State> {
    if nft !in st.agents then
      Some(st.(agents := st.agents[nft := cid], cids := st.cids[cid := Status(0, 0)]))
    else if st.agents[nft] == cid then None
    else
      var previous := st.agents[nft];
      var aged := st.cids[previous := Get(st, previous).(expiresAt := Later(block, MIN_DURATION))];
      Some(st.(agents := st.agents[nft := cid], cids := aged[cid := Status(0, 0)]))
  }

  function PinFile(st: State, block: BlockNumber, cid: Cid, duration: nat): Option<State> {
    if cid == [] || duration < MIN_DURATION then None
    else
      var expiry := Later(block, duration);
      if cid in st.cids && expiry <= st.cids[cid].expiresAt then Some(st)
      else Some(st.(cids := st.cids[cid := Get(st, cid).(expiresAt := expiry)]))
  }

  function SubmitPins(st: State, isValidator: bool, who: Account, toSave: seq<Cid>, toRemove: seq<Cid>): Option<State> {
    if !isValidator then None
    else
      var saved := set c | c in toSave :: (c, who);
      var removed := set c | c in toRemove :: (c, who);
      Some(st.(pins := st.pins + saved - removed))
  }

  /** The guard in front of `get_file`. */
  predicate Readable(st: State, block: BlockNumber, cid: Cid) {
    var s := Get(st, cid);
    !(s.expiresAt != 0 && block > Saturated(s.expiresAt)) &&
    !(s.usableFrom == 0 || block < Saturated(s.usableFrom))
  }

  // ---------------------------------------------------------------- the inherent

  /** Half plus one, except that chains of at most three validators need one. */
  function RequiredMajority(n: nat): nat {
    if n <= 3 then 1 else n / 2 + 1
  }

  function Pinners(st: State, validators: set<Account>, cid: Cid): set<Account> {
    set v | v in validators && (cid, v) in st.pins
  }

  predicate MajorityPinned(st: State, validators: set<Account>, cid: Cid) {
    validators != {} && |Pinners(st, validators, cid)| >= RequiredMajority(|validators|)
  }

  predicate IsExpired(s: Status, block: nat) {
    s.expiresAt != 0 && block > s.expiresAt
  }

  function Expired(st: State, block: nat): set<Entry> {
    set c | c in st.cids && IsExpired(st.cids[c], block) :: (c, st.cids[c])
  }

  function NewlyUsable(st: State, validators: set<Account>): set<Entry> {
    set c | c in st.cids && MajorityPinned(st, validators, c) && st.cids[c].usableFrom == 0 :: (c, st.cids[c])
  }

  function CidsOf(entries: seq<Entry>): set<Cid> {
    set e | e in entries :: e.0
  }

  lemma CidsOfNext(entries: seq<Entry>, i: nat)
    requires i < |entries|
    ensures CidsOf(entries[..i + 1]) == CidsOf(entries[..i]) + {entries[i].0}
  {
  }

  function Marked(cids: map<Cid, Status>, block: BlockNumber, usable: set<Cid>): map<Cid, Status> {
    map c | c in cids.Keys + usable ::
      var s := if c in cids then cids[c] else Status(0, 0);
      if c in usable then s.(usableFrom := block) else s
  }

  function ApplyInherent(st: State, block: BlockNumber, usable: seq<Entry>, toRemove: seq<Entry>): State {
    var gone := CidsOf(toRemove);
    st.(cids := Marked(st.cids, block, CidsOf(usable)) - gone,
        pins := set p | p in st.pins && p.0 !in gone)
  }

  /** What the verifier demands of a proposed inherent for block `block`, on the
      parent state: the right number of entries and no entry that is not computed. */
  ghost predicate Accepts(parent: State, validators: set<Account>, block: nat, usable: seq<Entry>, toRemove: seq<Entry>) {
    && |usable| == |NewlyUsable(parent, validators)| && Elems(usable) <= NewlyUsable(parent, validators)
    && |toRemove| == |Expired(parent, block)| && Elems(toRemove) <= Expired(parent, block)
  }

  // ---------------------------------------------------------------- the pallet

  class Pallet {
    var cidsStatus: map<Cid, Status>
    var nodesPins: set<(Cid, Account)>
    var agentsPins: map<NftId, Cid>
    var inherentDidUpdate: bool

    function View(): State
      reads this
    {
      State(cidsStatus, nodesPins, agentsPins)
    }

    constructor ()
      ensures View() == EMPTY && !inherentDidUpdate
    {
      cidsStatus, nodesPins, agentsPins, inherentDidUpdate := map[], {}, map[], false;
    }

    function Lookup(cid: Cid): Status
      reads this
    {
      if cid in cidsStatus then cidsStatus[cid] else Status(0, 0)
    }

    method PinAgentCall(block: BlockNumber, cid: Cid, nft: NftId) returns (ok: bool)
      modifies this`cidsStatus, this`agentsPins
      ensures ok == PinAgent(old(View()), block, cid, nft).Some?
      ensures View() == if ok then PinAgent(old(View()), block, cid, nft).value else old(View())
    {
      if nft in agentsPins {
        var existing := agentsPins[nft];
        if existing == cid {
          return false;
        }
        cidsStatus := cidsStatus[existing := Lookup(existing).(expiresAt := Later(block, MIN_DURATION))];
      }
      agentsPins := agentsPins[nft := cid];
      cidsStatus := cidsStatus[cid := Status(0, 0)];
      ok := true;
    }

    method PinFileCall(block: BlockNumber, cid: Cid, duration: nat) returns (ok: bool)
      modifies this`cidsStatus
      ensures ok == PinFile(old(View()), block, cid, duration).Some?
      ensures View() == if ok then PinFile(old(View()), block, cid, duration).value else old(View())
    {
      if cid == [] || duration < MIN_DURATION {
        return false;
      }
      var newExpiry := Later(block, duration);
      if cid in cidsStatus {
        if newExpiry > cidsStatus[cid].expiresAt {
          cidsStatus := cidsStatus[cid := cidsStatus[cid].(expiresAt := newExpiry)];
        }
      } else {
        cidsStatus := cidsStatus[cid := Status(newExpiry, 0)];
      }
      ok := true;
    }

    method SubmitProcessedPins(isValidator: bool, who: Account, toSave: seq<Cid>, toRemove: seq<Cid>) returns (ok: bool)
      modifies this`nodesPins
      ensures ok == SubmitPins(old(View()), isValidator, who, toSave, toRemove).Some?
      ensures View() == if ok then SubmitPins(old(View()), isValidator, who, toSave, toRemove).value else old(View())
    {
      if !isValidator {
        return false;
      }
      for i := 0 to |toSave|
        invariant nodesPins == old(nodesPins) + set c | c in toSave[..i] :: (c, who)
      {
        nodesPins := nodesPins + {(toSave[i], who)};
        assert toSave[..i + 1] == toSave[..i] + [toSave[i]];
      }
      assert toSave[..|toSave|] == toSave;
      for i := 0 to |toRemove|
        invariant nodesPins == old(nodesPins) + (set c | c in toSave :: (c, who)) - set c | c in toRemove[..i] :: (c, who)
      {
        nodesPins := nodesPins - {(toRemove[i], who)};
        assert toRemove[..i + 1] == toRemove[..i] + [toRemove[i]];
      }
      assert toRemove[..|toRemove|] == toRemove;
      ok := true;
    }

    /** Counts the current validators that hold the file. */
    method IsMajorityPinned(validators: set<Account>, cid: Cid) returns (majority: bool)
      ensures majority == MajorityPinned(View(), validators, cid)
    {
      if validators == {} {
        return false;
      }
      var count, todo := 0, validators;
      while todo != {}
        invariant todo <= validators
        invariant count == |Pinners(View(), validators - todo, cid)|
        decreases todo
      {
        var v :| v in todo;
        var before, after := Pinners(View(), validators - todo, cid), Pinners(View(), validators - (todo - {v}), cid);
        if (cid, v) in nodesPins {
          assert after == before + {v};
          count := count + 1;
        } else {
          assert after == before;
        }
        todo := todo - {v};
      }
      assert validators - todo == validators;
      majority := count >= RequiredMajority(|validators|);
    }

    /** Computes both lists; storage iteration may visit the entries in any order. */
    method IpfsOperations(validators: set<Account>, block: nat) returns (usable: seq<Entry>, toRemove: seq<Entry>)
      ensures Lists(usable, NewlyUsable(View(), validators))
      ensures Lists(toRemove, Expired(View(), block))
    {
      usable, toRemove := [], [];
      var todo := cidsStatus.Keys;
      while todo != {}
        invariant todo <= cidsStatus.Keys
        invariant NoDup(toRemove)
        invariant Elems(toRemove) == set e | e in Expired(View(), block) && e.0 !in todo
        decreases todo
      {
        var cid :| cid in todo;
        var entry := (cid, cidsStatus[cid]);
        todo := todo - {cid};
        if IsExpired(cidsStatus[cid], block) {
          assert entry !in Elems(toRemove) && Elems(toRemove + [entry]) == Elems(toRemove) + {entry};
          toRemove := toRemove + [entry];
        }
      }
      todo := cidsStatus.Keys;
      while todo != {}
        invariant todo <= cidsStatus.Keys
        invariant NoDup(usable)
        invariant Elems(usable) == set e | e in NewlyUsable(View(), validators) && e.0 !in todo
        decreases todo
      {
        var cid :| cid in todo;
        var entry := (cid, cidsStatus[cid]);
        todo := todo - {cid};
        var majority := IsMajorityPinned(validators, cid);
        if majority && entry.1.usableFrom == 0 {
          assert entry !in Elems(usable) && Elems(usable + [entry]) == Elems(usable) + {entry};
          usable := usable + [entry];
        }
      }
    }

    /** Runs on the parent state and recomputes what block `block` should contain. */
    method CheckInherent(validators: set<Account>, block: nat, usable: seq<Entry>, toRemove: seq<Entry>) returns (ok: bool)
      ensures ok == Accepts(View(), validators, block, usable, toRemove)
    {
      var expectedUsable, expectedToRemove := IpfsOperations(validators, block);
      ElemsCount(expectedUsable);
      ElemsCount(expectedToRemove);
      if |usable| != |expectedUsable| {
        return false;
      }
      for i := 0 to |usable|
        invariant forall j :: 0 <= j < i ==> usable[j] in expectedUsable
      {
        if usable[i] !in expectedUsable {
          assert usable[i] in Elems(usable) && usable[i] !in Elems(expectedUsable);
          return false;
        }
      }
      assert Elems(usable) <= Elems(expectedUsable);
      if |toRemove| != |expectedToRemove| {
        return false;
      }
      for i := 0 to |toRemove|
        invariant forall j :: 0 <= j < i ==> toRemove[j] in expectedToRemove
      {
        if toRemove[i] !in expectedToRemove {
          assert toRemove[i] in Elems(toRemove) && toRemove[i] !in Elems(expectedToRemove);
          return false;
        }
      }
      assert Elems(toRemove) <= Elems(expectedToRemove);
      ok := true;
    }

    /** The inherent itself. A second one in the same block aborts the block,
        which the result reports. */
    method SetInherentData(block: BlockNumber, usable: seq<Entry>, toRemove: seq<Entry>) returns (ok: bool)
      modifies this
      ensures ok == !old(inherentDidUpdate) && inherentDidUpdate
      ensures View() == if ok then ApplyInherent(old(View()), block, usable, toRemove) else old(View())
    {
      if inherentDidUpdate {
        return false;
      }
      MarkUsable(block, usable);
      RemoveExpired(toRemove);
      inherentDidUpdate := true;
      ok := true;
    }

    method MarkUsable(block: BlockNumber, usable: seq<Entry>)
      modifies this`cidsStatus
      ensures cidsStatus == Marked(old(cidsStatus), block, CidsOf(usable))
    {
      for i := 0 to |usable|
        invariant cidsStatus == Marked(old(cidsStatus), block, CidsOf(usable[..i]))
      {
        var cid := usable[i].0;
        cidsStatus := cidsStatus[cid := Lookup(cid).(usableFrom := block)];
        CidsOfNext(usable, i);
      }
      assert usable[..|usable|] == usable;
    }

    method RemoveExpired(toRemove: seq<Entry>)
      modifies this`cidsStatus, this`nodesPins
      ensures cidsStatus == old(cidsStatus) - CidsOf(toRemove)
      ensures nodesPins == set p | p in old(nodesPins) && p.0 !in CidsOf(toRemove)
    {
      for i := 0 to |toRemove|
        invariant cidsStatus == old(cidsStatus) - CidsOf(toRemove[..i])
        invariant nodesPins == set p | p in old(nodesPins) && p.0 !in CidsOf(toRemove[..i])
      {
        var cid := toRemove[i].0;
        cidsStatus := cidsStatus - {cid};
        nodesPins := set p | p in nodesPins && p.0 != cid;
        CidsOfNext(toRemove, i);
      }
      assert toRemove[..|toRemove|] == toRemove;
    }

    /** A block without an inherent aborts, which the result reports. */
    method OnFinalize() returns (ok: bool)
      modifies this`inherentDidUpdate
      ensures ok == old(inherentDidUpdate) && !inherentDidUpdate
    {
      ok := inherentDidUpdate;
      inherentDidUpdate := false;
    }
  }

  // ---------------------------------------------------------------- what a call changes

  /** A pin lasts at least until the asked block, never less than before, and
      costs nobody a mark; only the pinned file is concerned. A pin makes a
      persistent file temporary. */
  lemma PinFileExtends(st: State, block: BlockNumber, cid: Cid, duration: nat, other: Cid)
    ensures PinFile(st, block, cid, duration).Some? <==> |cid| > 0 && duration >= 28800
    ensures PinFile(st, block, cid, duration).Some? ==>
              var st', expiry := PinFile(st, block, cid, duration).value, Min(block + duration, 0xFFFF_FFFF);
              && st'.pins == st.pins && st'.agents == st.agents
              && cid in st'.cids
              && st'.cids[cid].expiresAt == Max(Get(st, cid).expiresAt, expiry)
              && st'.cids[cid].usableFrom == Get(st, cid).usableFrom
              && (other != cid ==> SameEntry(st, st', other))
  {
  }

  /** A new agent file is persistent and not usable yet; the file it replaces is
      kept for one more day. */
  lemma PinAgentReplaces(st: State, block: BlockNumber, cid: Cid, nft: NftId, other: Cid)
    ensures PinAgent(st, block, cid, nft).None? <==> nft in st.agents && st.agents[nft] == cid
    ensures PinAgent(st, block, cid, nft).Some? ==>
              var st' := PinAgent(st, block, cid, nft).value;
              && st'.pins == st.pins && st'.agents == st.agents[nft := cid]
              && cid in st'.cids && st'.cids[cid] == Status(0, 0)
              && (other != cid && nft in st.agents && st.agents[nft] == other ==>
                    && other in st'.cids && st'.cids[other].expiresAt == Min(block + 28800, 0xFFFF_FFFF)
                    && st'.cids[other].usableFrom == Get(st, other).usableFrom)
              && (other != cid && !(nft in st.agents && st.agents[nft] == other) ==> SameEntry(st, st', other))
  {
  }

  /** After a report the validator is recorded for what it saved or held before,
      unless the report removes it; nobody else's pins change. */
  lemma ReportSetsPins(st: State, isValidator: bool, who: Account, toSave: seq<Cid>, toRemove: seq<Cid>, cid: Cid, v: Account)
    ensures SubmitPins(st, isValidator, who, toSave, toRemove).Some? <==> isValidator
    ensures isValidator ==>
              var st' := SubmitPins(st, isValidator, who, toSave, toRemove).value;
              && st'.cids == st.cids && st'.agents == st.agents
              && ((cid, v) in st'.pins <==>
                    if v == who then cid !in toRemove && (cid in toSave || (cid, v) in st.pins) else (cid, v) in st.pins)
  {
  }

  function Min(a: nat, b: nat): nat {
    if a <= b then a else b
  }

  function Max(a: nat, b: nat): nat {
    if a <= b then b else a
  }

  ghost predicate SameEntry(a: State, b: State, cid: Cid) {
    (cid in a.cids <==> cid in b.cids) && Get(a, cid) == Get(b, cid)
  }

  // ---------------------------------------------------------------- author and verifier

  /** What an honest author builds from the parent state passes the check,
      whatever order either side iterates its storage in. */
  lemma AuthorIsAccepted(parent: State, validators: set<Account>, block: nat, usable: seq<Entry>, toRemove: seq<Entry>)
    requires Lists(usable, NewlyUsable(parent, validators)) && Lists(toRemove, Expired(parent, block))
    ensures Accepts(parent, validators, block, usable, toRemove)
  {
    ElemsCount(usable);
    ElemsCount(toRemove);
  }

  /** An accepted inherent names only computed entries, and it names all of them
      exactly when it does not repeat one. */
  lemma AcceptedIsExactIffNoRepeats(parent: State, validators: set<Account>, block: nat, usable: seq<Entry>, toRemove: seq<Entry>)
    requires Accepts(parent, validators, block, usable, toRemove)
    ensures Elems(usable) == NewlyUsable(parent, validators) <==> NoDup(usable)
    ensures Elems(toRemove) == Expired(parent, block) <==> NoDup(toRemove)
  {
    ElemsCount(usable);
    ElemsCount(toRemove);
    SubsetCount(Elems(usable), NewlyUsable(parent, validators));
    SubsetCount(Elems(toRemove), Expired(parent, block));
  }

  /** What the inherent does to one CID: gone if removed, marked with the block
      and otherwise as before if listed as usable, and untouched if neither. Pins
      go with their CID and not otherwise. */
  lemma InherentPerCid(parent: State, block: BlockNumber, usable: seq<Entry>, toRemove: seq<Entry>, cid: Cid, v: Account)
    ensures var after := ApplyInherent(parent, block, usable, toRemove);
            && after.agents == parent.agents
            && (cid in CidsOf(toRemove) ==> cid !in after.cids)
            && (cid !in CidsOf(toRemove) && cid in CidsOf(usable) ==>
                  cid in after.cids && after.cids[cid] == Status(Get(parent, cid).expiresAt, block))
            && (cid !in CidsOf(toRemove) && cid !in CidsOf(usable) ==> SameEntry(parent, after, cid))
            && ((cid, v) in after.pins <==> (cid, v) in parent.pins && cid !in CidsOf(toRemove))
  {
  }

  // ---------------------------------------------------------------- chains of blocks

  datatype Call =
    | PinAgentTx(cid: Cid, nft: NftId)
    | PinFileTx(file: Cid, duration: nat)
    | SubmitPinsTx(isValidator: bool, who: Account, toSave: seq<Cid>, toRemove: seq<Cid>)

  /** `validators` is the staking set that the parent state holds. */
  datatype Body = Body(validators: set<Account>, usable: seq<Entry>, toRemove: seq<Entry>, calls: seq<Call>)

  function Dispatch(st: State, block: BlockNumber, call: Call): Option<State> {
    match call
    case PinAgentTx(cid, nft) => PinAgent(st, block, cid, nft)
    case PinFileTx(cid, duration) => PinFile(st, block, cid, duration)
    case SubmitPinsTx(isValidator, who, toSave, toRemove) => SubmitPins(st, isValidator, who, toSave, toRemove)
  }

  /** Failed calls leave the state as it was. */
  function AfterCalls(st: State, block: BlockNumber, calls: seq<Call>): State {
    if calls == [] then st
    else
      var before := AfterCalls(st, block, calls[..|calls| - 1]);
      var r := Dispatch(before, block, calls[|calls| - 1]);
      if r.Some? then r.value else before
  }

  function AfterBlock(parent: State, block: BlockNumber, body: Body): State {
    AfterCalls(ApplyInherent(parent, block, body.usable, body.toRemove), block, body.calls)
  }

  /** states[k] is the state after block k, and bodies[k - 1] is block k. */
  ghost predicate IsChain(states: seq<State>, bodies: seq<Body>) {
    && |states| == |bodies| + 1 && |bodies| <= U32_MAX
    && states[0] == EMPTY
    && forall k :: 0 <= k < |bodies| ==>
         && Accepts(states[k], bodies[k].validators, k + 1, bodies[k].usable, bodies[k].toRemove)
         && states[k + 1] == AfterBlock(states[k], k + 1, bodies[k])
  }

  ghost predicate AllLive(st: State, block: nat) {
    forall c :: c in st.cids ==> !IsExpired(st.cids[c], block)
  }

  /** Directly after an accepted inherent, nothing that is tracked has expired if
      and only if the removal list repeats no entry. */
  lemma InherentClearsExpired(parent: State, block: BlockNumber, body: Body)
    requires Accepts(parent, body.validators, block, body.usable, body.toRemove)
    ensures AllLive(ApplyInherent(parent, block, body.usable, body.toRemove), block) <==> NoDup(body.toRemove)
  {
    AcceptedIsExactIffNoRepeats(parent, body.validators, block, body.usable, body.toRemove);
    var after := ApplyInherent(parent, block, body.usable, body.toRemove);
    AcceptedUsableIsTracked(parent, block, body);
    if NoDup(body.toRemove) {
      forall c | c in after.cids ensures !IsExpired(after.cids[c], block) {
        assert (c, parent.cids[c]).0 !in CidsOf(body.toRemove);
        assert (c, parent.cids[c]) !in Elems(body.toRemove);
      }
    } else {
      var e :| e in Expired(parent, block) && e !in Elems(body.toRemove);
      assert e.0 !in CidsOf(body.toRemove) by {
        forall e' | e' in body.toRemove ensures e'.0 != e.0 {
          assert e' in Elems(body.toRemove);
        }
      }
      assert e.0 in after.cids && IsExpired(after.cids[e.0], block);
    }
  }

  /** As many entries as the set has, but all the same one. */
  ghost function Repeated(xs: set<Entry>): seq<Entry> {
    if xs == {} then [] else
      var e :| e in xs;
      seq(|xs|, _ => e)
  }

  lemma RepeatedIsShort(xs: set<Entry>)
    ensures |Repeated(xs)| == |xs| && Elems(Repeated(xs)) <= xs
    ensures |xs| >= 2 ==> Repeated(xs)[0] == Repeated(xs)[1] && Elems(Repeated(xs)) != xs
  {
    if |xs| >= 2 {
      assert Elems(Repeated(xs)) == {Repeated(xs)[0]};
    }
  }

  /** The check does accept repeats: with two expired entries a list that repeats
      one of them passes, and leaves another one tracked. */
  lemma RepeatsAreAccepted(parent: State, validators: set<Account>, block: BlockNumber)
    ensures var usable, toRemove := Repeated(NewlyUsable(parent, validators)), Repeated(Expired(parent, block));
            && Accepts(parent, validators, block, usable, toRemove)
            && (|Expired(parent, block)| >= 2 ==> !NoDup(toRemove) && !AllLive(ApplyInherent(parent, block, usable, toRemove), block))
  {
    var usable, toRemove := Repeated(NewlyUsable(parent, validators)), Repeated(Expired(parent, block));
    RepeatedIsShort(NewlyUsable(parent, validators));
    RepeatedIsShort(Expired(parent, block));
    InherentClearsExpired(parent, block, Body(validators, usable, toRemove, []));
  }

  /** Every inherent that passes is exactly the computed one. */
  ghost predicate CheckIsExact(parent: State, validators: set<Account>, block: nat) {
    forall usable: seq<Entry>, toRemove: seq<Entry> :: Accepts(parent, validators, block, usable, toRemove) ==>
      Elems(usable) == NewlyUsable(parent, validators) && Elems(toRemove) == Expired(parent, block)
  }

  /** That is so exactly when neither list has two entries. */
  lemma CheckIsExactIff(parent: State, validators: set<Account>, block: BlockNumber)
    ensures CheckIsExact(parent, validators, block) <==>
              |NewlyUsable(parent, validators)| <= 1 && |Expired(parent, block)| <= 1
  {
    if |NewlyUsable(parent, validators)| <= 1 && |Expired(parent, block)| <= 1 {
      forall usable: seq<Entry>, toRemove: seq<Entry> | Accepts(parent, validators, block, usable, toRemove)
        ensures Elems(usable) == NewlyUsable(parent, validators) && Elems(toRemove) == Expired(parent, block)
      {
        AcceptedIsExactIffNoRepeats(parent, validators, block, usable, toRemove);
      }
    } else {
      RepeatsAreAccepted(parent, validators, block);
      RepeatedIsShort(NewlyUsable(parent, validators));
      RepeatedIsShort(Expired(parent, block));
    }
  }

  lemma AcceptedUsableIsTracked(parent: State, block: nat, body: Body)
    requires Accepts(parent, body.validators, block, body.usable, body.toRemove)
    ensures CidsOf(body.usable) <= parent.cids.Keys
    ensures forall c :: c in CidsOf(body.usable) ==> MajorityPinned(parent, body.validators, c) && Get(parent, c).usableFrom == 0
  {
    forall c | c in CidsOf(body.usable)
      ensures c in parent.cids && MajorityPinned(parent, body.validators, c) && Get(parent, c).usableFrom == 0
    {
      var e :| e in body.usable && e.0 == c;
      assert e in Elems(body.usable);
    }
  }

  lemma {:induction false} CallsKeepLive(st: State, block: BlockNumber, calls: seq<Call>)
    requires AllLive(st, block)
    ensures AllLive(AfterCalls(st, block, calls), block)
  {
    if calls != [] {
      CallsKeepLive(st, block, calls[..|calls| - 1]);
    }
  }

  /** The marks that can stand at the end of block k: none from the future, and
      each backed by the pins that the parent of the marking block recorded. */
  ghost predicate MarksAreEarned(st: State, states: seq<State>, bodies: seq<Body>, k: nat)
    requires k <= |bodies| <= |states|
  {
    forall c :: c in st.cids ==>
      var u := st.cids[c].usableFrom;
      u <= k && (u != 0 ==> MajorityPinned(states[u - 1], bodies[u - 1].validators, c))
  }

  lemma CallKeepsMarks(st: State, block: BlockNumber, call: Call, states: seq<State>, bodies: seq<Body>)
    requires block <= |bodies| <= |states|
    requires MarksAreEarned(st, states, bodies, block)
    ensures var r := Dispatch(st, block, call); r.Some? ==> MarksAreEarned(r.value, states, bodies, block)
  {
    var r := Dispatch(st, block, call);
    if r.Some? {
      forall c | c in r.value.cids
        ensures var u := r.value.cids[c].usableFrom;
                u == 0 || (c in st.cids && st.cids[c].usableFrom == u)
      {
        match call
        case PinAgentTx(_, _) =>
        case PinFileTx(_, _) =>
        case SubmitPinsTx(_, _, _, _) =>
      }
    }
  }

  lemma {:induction false} CallsKeepMarks(st: State, block: BlockNumber, calls: seq<Call>, states: seq<State>, bodies: seq<Body>)
    requires block <= |bodies| <= |states|
    requires MarksAreEarned(st, states, bodies, block)
    ensures MarksAreEarned(AfterCalls(st, block, calls), states, bodies, block)
  {
    if calls != [] {
      CallsKeepMarks(st, block, calls[..|calls| - 1], states, bodies);
      CallKeepsMarks(AfterCalls(st, block, calls[..|calls| - 1]), block, calls[|calls| - 1], states, bodies);
    }
  }

  /** In every reachable state a file that is usable from block u had been pinned
      by the required majority when block u's inherent was computed. */
  lemma {:induction false} UsableHadMajority(states: seq<State>, bodies: seq<Body>, k: nat)
    requires IsChain(states, bodies) && k <= |bodies|
    ensures MarksAreEarned(states[k], states, bodies, k)
  {
    if k > 0 {
      UsableHadMajority(states, bodies, k - 1);
      var parent, body := states[k - 1], bodies[k - 1];
      AcceptedUsableIsTracked(parent, k, body);
      var after := ApplyInherent(parent, k, body.usable, body.toRemove);
      assert MarksAreEarned(after, states, bodies, k) by {
        forall c | c in after.cids
          ensures var u := after.cids[c].usableFrom;
                  u <= k && (u != 0 ==> MajorityPinned(states[u - 1], bodies[u - 1].validators, c))
        {
          assert c in parent.cids;
        }
      }
      CallsKeepMarks(after, k, body.calls, states, bodies);
    }
  }

  /** A file with a majority becomes readable: if it is tracked, not marked and
      not expired in the parent, and the usable list does not repeat, then right
      after the inherent of block k it is marked with k and `get_file` serves it. */
  lemma MajorityBecomesReadable(states: seq<State>, bodies: seq<Body>, k: nat, cid: Cid)
    requires IsChain(states, bodies) && 0 < k <= |bodies|
    requires var parent := states[k - 1];
             && cid in parent.cids && parent.cids[cid].usableFrom == 0
             && (parent.cids[cid].expiresAt == 0 || k <= parent.cids[cid].expiresAt)
             && MajorityPinned(parent, bodies[k - 1].validators, cid)
    requires NoDup(bodies[k - 1].usable)
    ensures var after := ApplyInherent(states[k - 1], k, bodies[k - 1].usable, bodies[k - 1].toRemove);
            cid in after.cids && after.cids[cid].usableFrom == k && Readable(after, k, cid)
  {
    var parent, body := states[k - 1], bodies[k - 1];
    AcceptedIsExactIffNoRepeats(parent, body.validators, k, body.usable, body.toRemove);
    assert (cid, parent.cids[cid]) in Elems(body.usable);
    RemovedIsExpired(parent, k, body, cid);
    InherentPerCid(parent, k, body.usable, body.toRemove, cid, 0);
  }

  /** Nothing is removed before its expiry block has passed. */
  lemma RemovedIsExpired(parent: State, block: nat, body: Body, cid: Cid)
    requires Accepts(parent, body.validators, block, body.usable, body.toRemove)
    ensures cid in CidsOf(body.toRemove) ==>
              cid in parent.cids && parent.cids[cid].expiresAt != 0 && parent.cids[cid].expiresAt < block
  {
    if cid in CidsOf(body.toRemove) {
      var e :| e in body.toRemove && e.0 == cid;
      assert e in Elems(body.toRemove);
    }
  }

  /** A file that is tracked stays tracked through its expiry block, whatever the
      block does: no inherent removes it and no call does. */
  lemma KeptUntilExpiry(states: seq<State>, bodies: seq<Body>, k: nat, cid: Cid)
    requires IsChain(states, bodies) && 0 < k <= |bodies|
    requires cid in states[k - 1].cids
    requires states[k - 1].cids[cid].expiresAt == 0 || k <= states[k - 1].cids[cid].expiresAt
    ensures cid in states[k].cids
  {
    var parent, body := states[k - 1], bodies[k - 1];
    RemovedIsExpired(parent, k, body, cid);
    InherentPerCid(parent, k, body.usable, body.toRemove, cid, 0);
    CallsKeepTracked(ApplyInherent(parent, k, body.usable, body.toRemove), k, body.calls, cid);
  }

  lemma {:induction false} CallsKeepTracked(st: State, block: BlockNumber, calls: seq<Call>, cid: Cid)
    requires cid in st.cids
    ensures cid in AfterCalls(st, block, calls).cids
  {
    if calls != [] {
      CallsKeepTracked(st, block, calls[..|calls| - 1], cid);
    }
  }

  /** A mark stays what it is: an inherent does not touch it while the file is
      tracked. */
  lemma MarkStays(states: seq<State>, bodies: seq<Body>, k: nat, cid: Cid)
    requires IsChain(states, bodies) && 0 < k <= |bodies|
    requires cid in states[k - 1].cids && states[k - 1].cids[cid].usableFrom != 0
    ensures var after := ApplyInherent(states[k - 1], k, bodies[k - 1].usable, bodies[k - 1].toRemove);
            cid in after.cids ==> after.cids[cid] == states[k - 1].cids[cid]
  {
    AcceptedUsableIsTracked(states[k - 1], k, bodies[k - 1]);
    InherentPerCid(states[k - 1], k, bodies[k - 1].usable, bodies[k - 1].toRemove, cid, 0);
  }

  /** `get_file` serves a file from the block of its mark through its expiry. */
  lemma ReadableWhile(st: State, block: BlockNumber, cid: Cid)
    requires Get(st, cid).usableFrom <= 0xFFFF_FFFF
    ensures Readable(st, block, cid) <==>
              && cid in st.cids && 0 < st.cids[cid].usableFrom <= block
              && (st.cids[cid].expiresAt == 0 || block <= st.cids[cid].expiresAt)
  {
  }

  /** At the end of every block whose removal list has no repeats, everything
      tracked is alive, and `get_file` serves exactly the marked files. */
  lemma EndOfBlock(states: seq<State>, bodies: seq<Body>, k: nat, cid: Cid)
    requires IsChain(states, bodies) && 0 < k <= |bodies|
    requires NoDup(bodies[k - 1].toRemove)
    ensures cid in states[k].cids ==> states[k].cids[cid].expiresAt == 0 || k <= states[k].cids[cid].expiresAt
    ensures cid in states[k].cids ==> states[k].cids[cid].usableFrom <= k
    ensures Readable(states[k], k, cid) <==> cid in states[k].cids && states[k].cids[cid].usableFrom != 0
  {
    InherentClearsExpired(states[k - 1], k, bodies[k - 1]);
    CallsKeepLive(ApplyInherent(states[k - 1], k, bodies[k - 1].usable, bodies[k - 1].toRemove), k, bodies[k - 1].calls);
    UsableHadMajority(states, bodies, k);
  }

  /** A majority is more than half of the validators, or any one of at most three. */
  lemma MajorityIsStrict(st: State, validators: set<Account>, cid: Cid)
    ensures |validators| > 3 ==> (MajorityPinned(st, validators, cid) <==> 2 * |set v | v in validators && (cid, v) in st.pins| > |validators|)
    ensures |validators| <= 3 ==> (MajorityPinned(st, validators, cid) <==> exists v :: v in validators && (cid, v) in st.pins)
  {
    var p := set v | v in validators && (cid, v) in st.pins;
    assert p == Pinners(st, validators, cid);
    if v :| v in validators && (cid, v) in st.pins {
      assert v in p;
    } else {
      assert p == {};
    }
  }
}
