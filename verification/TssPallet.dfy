/** The registries of pallets/tss: validator ids and session ids. */
module TssPallet {
  import opened Prelude

  type Account = nat
  type NftId = string
  type SessionId = nat

  const U32: nat := 0x1_0000_0000
  const U64: nat := 0x1_0000_0000_0000_0000
  /** TEMP_BLOCK_FOR_NEW_OPOC */
  const FIRST_BLOCK: nat := 1_950_000
  const MAX_SHARES: nat := 65_536

  datatype DkgSession = DkgSession(participants: seq<Account>, nft: NftId, threshold: nat)

  datatype SigningSession = SigningSession(dkgId: SessionId, nft: NftId, message: string)

  datatype State = State(
    validatorIds: map<Account, nat>,
    idToValidator: map<nat, Account>,
    nextValidatorId: nat,
    active: seq<Account>,
    nextSessionId: SessionId,
    dkgSessions: map<SessionId, DkgSession>,
    signingSessions: map<SessionId, SigningSession>)

  const EMPTY := State(map[], map[], 0, [], 0, map[], map[])

  // ---------------------------------------------------------------- operations

  function OnInitialize(st: State, block: nat): State {
    if block >= FIRST_BLOCK && st.nextValidatorId == 0 then st.(nextValidatorId := 1) else st
  }

  /** Counters wrap, as unchecked machine integers do. */
  function Assign(st: State, v: Account): State {
    if v in st.validatorIds then st
    else
      var id := st.nextValidatorId;
      st.(validatorIds := st.validatorIds[v := id],
          idToValidator := st.idToValidator[id := v],
          nextValidatorId := (id + 1) % U32)
  }

  function AssignAll(st: State, vs: seq<Account>): State {
    if vs == [] then st else Assign(AssignAll(st, vs[..|vs| - 1]), vs[|vs| - 1])
  }

  /** A list that does not fit the bounded vector aborts the call. */
  function UpdateValidators(st: State, vs: seq<Account>): Option<State> {
    if |vs| > MAX_SHARES then None else Some(AssignAll(st, vs).(active := vs))
  }

  function CreateDkgSession(st: State, whitelisted: bool, nft: NftId, threshold: nat, validators: seq<Account>): Option<State> {
    if !whitelisted || !(50 <= threshold <= 100) || |validators| > MAX_SHARES then None
    else
      Some(st.(dkgSessions := st.dkgSessions[st.nextSessionId := DkgSession(validators, nft, threshold)],
               nextSessionId := (st.nextSessionId + 1) % U64))
  }

  /** The first session for the agent in storage iteration order. */
  function FindSession(st: State, order: seq<SessionId>, nft: NftId): Option<SessionId> {
    if order == [] then None
    else if order[0] in st.dkgSessions && st.dkgSessions[order[0]].nft == nft then Some(order[0])
    else FindSession(st, order[1..], nft)
  }

  function CreateSigningSession(st: State, whitelisted: bool, nft: NftId, message: string, order: seq<SessionId>): Option<State> {
    var found := FindSession(st, order, nft);
    if !whitelisted || found.None? then None
    else
      Some(st.(signingSessions := st.signingSessions[st.nextSessionId := SigningSession(found.value, nft, message)],
               nextSessionId := (st.nextSessionId + 1) % U64))
  }

  // ---------------------------------------------------------------- the pallet

  class Pallet {
    var validatorIds: map<Account, nat>
    var idToValidator: map<nat, Account>
    var nextValidatorId: nat
    var active: seq<Account>
    var nextSessionId: SessionId
    var dkgSessions: map<SessionId, DkgSession>
    var signingSessions: map<SessionId, SigningSession>

    function View(): State
      reads this
    {
      State(validatorIds, idToValidator, nextValidatorId, active, nextSessionId, dkgSessions, signingSessions)
    }

    constructor ()
      ensures View() == EMPTY
    {
      validatorIds, idToValidator, nextValidatorId, active := map[], map[], 0, [];
      nextSessionId, dkgSessions, signingSessions := 0, map[], map[];
    }

    method Initialize(block: nat)
      modifies this`nextValidatorId
      ensures View() == OnInitialize(old(View()), block)
    {
      if block >= FIRST_BLOCK {
        if nextValidatorId == 0 {
          nextValidatorId := 1;
        }
      }
    }

    method AssignValidatorId(v: Account)
      modifies this`validatorIds, this`idToValidator, this`nextValidatorId
      ensures View() == Assign(old(View()), v)
    {
      if v in validatorIds {
        return;
      }
      var id := nextValidatorId;
      validatorIds := validatorIds[v := id];
      idToValidator := idToValidator[id := v];
      nextValidatorId := (id + 1) % U32;
    }

    method Update(vs: seq<Account>) returns (ok: bool)
      modifies this
      ensures ok == UpdateValidators(old(View()), vs).Some?
      ensures View() == if ok then UpdateValidators(old(View()), vs).value else old(View())
    {
      if |vs| > MAX_SHARES {
        return false;
      }
      for i := 0 to |vs|
        invariant View() == AssignAll(old(View()), vs[..i])
      {
        AssignValidatorId(vs[i]);
        assert vs[..i + 1][..i] == vs[..i];
      }
      assert vs[..|vs|] == vs;
      active := vs;
      ok := true;
    }

    method GetNextSessionId() returns (id: SessionId)
      modifies this`nextSessionId
      ensures id == old(nextSessionId) && nextSessionId == (id + 1) % U64
    {
      id := nextSessionId;
      nextSessionId := (id + 1) % U64;
    }

    method CreateDkg(whitelisted: bool, nft: NftId, threshold: nat, validators: seq<Account>) returns (ok: bool)
      modifies this`nextSessionId, this`dkgSessions
      ensures ok == CreateDkgSession(old(View()), whitelisted, nft, threshold, validators).Some?
      ensures View() == if ok then CreateDkgSession(old(View()), whitelisted, nft, threshold, validators).value else old(View())
    {
      if !whitelisted || threshold == 0 || threshold > 100 || threshold < 50 || |validators| > MAX_SHARES {
        return false;
      }
      var id := GetNextSessionId();
      dkgSessions := dkgSessions[id := DkgSession(validators, nft, threshold)];
      ok := true;
    }

    method CreateSigning(whitelisted: bool, nft: NftId, message: string, order: seq<SessionId>) returns (ok: bool)
      modifies this`nextSessionId, this`signingSessions
      ensures ok == CreateSigningSession(old(View()), whitelisted, nft, message, order).Some?
      ensures View() == if ok then CreateSigningSession(old(View()), whitelisted, nft, message, order).value else old(View())
    {
      if !whitelisted {
        return false;
      }
      var found := None;
      for i := 0 to |order|
        invariant found == None && FindSession(View(), order, nft) == FindSession(View(), order[i..], nft)
      {
        if order[i] in dkgSessions && dkgSessions[order[i]].nft == nft {
          found := Some(order[i]);
          break;
        }
      }
      if found == None {
        return false;
      }
      var id := GetNextSessionId();
      signingSessions := signingSessions[id := SigningSession(found.value, nft, message)];
      ok := true;
    }
  }

  // ---------------------------------------------------------------- runs

  datatype Event =
    | InitializeEvent(block: nat)
    | UpdateTx(validators: seq<Account>)
    | CreateDkgTx(whitelisted: bool, nft: NftId, threshold: nat, participants: seq<Account>)
    | CreateSigningTx(allowed: bool, agent: NftId, message: string, order: seq<SessionId>)

  function Attempt(st: State, e: Event): Option<State> {
    match e
    case InitializeEvent(block) => Some(OnInitialize(st, block))
    case UpdateTx(vs) => UpdateValidators(st, vs)
    case CreateDkgTx(w, nft, threshold, vs) => CreateDkgSession(st, w, nft, threshold, vs)
    case CreateSigningTx(w, nft, message, order) => CreateSigningSession(st, w, nft, message, order)
  }

  function Step(st: State, e: Event): State {
    var r := Attempt(st, e);
    if r.Some? then r.value else st
  }

  function Run(events: seq<Event>): State {
    if events == [] then EMPTY else Step(Run(events[..|events| - 1]), events[|events| - 1])
  }

  /** How many list entries the run has offered for ids. */
  function Offered(events: seq<Event>): nat {
    if events == [] then 0
    else
      var e := events[|events| - 1];
      Offered(events[..|events| - 1]) + if e.UpdateTx? then |e.validators| else 0
  }

  // ---------------------------------------------------------------- validator ids

  /** Ids are handed out consecutively. They start at 1, or at 0 when the first
      update runs before the counter was initialized. */
  ghost predicate Bijection(st: State) {
    && (forall i :: i in st.idToValidator ==> i < st.nextValidatorId)
    && (forall i :: 1 <= i < st.nextValidatorId ==> i in st.idToValidator)
    && (forall i :: i in st.idToValidator ==>
          st.idToValidator[i] in st.validatorIds && st.validatorIds[st.idToValidator[i]] == i)
    && (forall v :: v in st.validatorIds ==>
          st.validatorIds[v] in st.idToValidator && st.idToValidator[st.validatorIds[v]] == v)
  }

  ghost predicate ActiveHaveIds(st: State) {
    forall v :: v in st.active ==> v in st.validatorIds
  }

  ghost predicate KeepsIds(st: State, st': State) {
    forall v :: v in st.validatorIds ==> v in st'.validatorIds && st'.validatorIds[v] == st.validatorIds[v]
  }

  lemma AssignKeeps(st: State, v: Account)
    requires Bijection(st) && st.nextValidatorId + 1 < U32
    ensures Bijection(Assign(st, v)) && KeepsIds(st, Assign(st, v))
    ensures Assign(st, v).nextValidatorId <= st.nextValidatorId + 1 && v in Assign(st, v).validatorIds
  {
  }

  lemma {:induction false} AssignAllKeeps(st: State, vs: seq<Account>)
    requires Bijection(st) && st.nextValidatorId + |vs| < U32
    ensures Bijection(AssignAll(st, vs)) && KeepsIds(st, AssignAll(st, vs))
    ensures AssignAll(st, vs).nextValidatorId <= st.nextValidatorId + |vs|
    ensures forall v :: v in vs ==> v in AssignAll(st, vs).validatorIds
  {
    if vs != [] {
      AssignAllKeeps(st, vs[..|vs| - 1]);
      AssignKeeps(AssignAll(st, vs[..|vs| - 1]), vs[|vs| - 1]);
    }
  }

  /** Over every run that stays within 32 bits, the two maps are inverse
      bijections onto the ids below the counter, and every active validator has
      an id, however often the lists repeat somebody. */
  lemma {:induction false} IdsAreABijection(events: seq<Event>)
    requires Offered(events) + 1 < U32
    ensures Bijection(Run(events)) && ActiveHaveIds(Run(events))
    ensures Run(events).nextValidatorId <= Offered(events) + 1
  {
    if events != [] {
      IdsAreABijection(events[..|events| - 1]);
      StepKeepsIds(Run(events[..|events| - 1]), events[|events| - 1]);
    }
  }

  lemma StepKeepsIds(st: State, e: Event)
    requires Bijection(st) && ActiveHaveIds(st)
    requires e.UpdateTx? ==> st.nextValidatorId + |e.validators| < U32
    ensures Bijection(Step(st, e)) && ActiveHaveIds(Step(st, e)) && KeepsIds(st, Step(st, e))
    ensures Step(st, e).nextValidatorId <=
              if e.UpdateTx? then st.nextValidatorId + |e.validators| else if st.nextValidatorId == 0 then 1 else st.nextValidatorId
  {
    if e.UpdateTx? {
      AssignAllKeeps(st, e.validators);
    }
  }

  /** An assigned id never changes, whatever happens later. */
  lemma {:induction false} IdsAreForever(events: seq<Event>, more: seq<Event>)
    requires Offered(events + more) + 1 < U32
    ensures KeepsIds(Run(events), Run(events + more))
    decreases |more|
  {
    if more == [] {
      assert events + more == events;
    } else {
      var less := more[..|more| - 1];
      assert (events + more)[..|events + more| - 1] == events + less;
      IdsAreForever(events, less);
      IdsAreABijection(events + less);
      StepKeepsIds(Run(events + less), more[|more| - 1]);
    }
  }

  /** An accepted update makes exactly the given list active; the only obstacle is
      its length. */
  lemma UpdateActivates(st: State, vs: seq<Account>)
    ensures Attempt(st, UpdateTx(vs)).Some? <==> |vs| <= 65_536
    ensures |vs| <= 65_536 ==> Step(st, UpdateTx(vs)).active == vs
  {
  }

  /** Where counting starts. */
  ghost predicate FromOne(st: State) {
    st.nextValidatorId >= 1 && 0 !in st.idToValidator
  }

  lemma {:induction false} AssignAllFromOne(st: State, vs: seq<Account>)
    requires Bijection(st) && FromOne(st) && st.nextValidatorId + |vs| < U32
    ensures FromOne(AssignAll(st, vs))
  {
    if vs != [] {
      AssignAllFromOne(st, vs[..|vs| - 1]);
      AssignAllKeeps(st, vs[..|vs| - 1]);
    }
  }

  /** If the hook runs, late enough, before any update, ids are 1, 2, 3 and so on;
      identifier 0, which the signature client cannot use, is never given out. */
  lemma {:induction false} IdsStartAtOne(block: nat, events: seq<Event>)
    requires block >= 1_950_000 && Offered(events) + 2 < U32
    ensures FromOne(Run([InitializeEvent(block)] + events))
    ensures Offered([InitializeEvent(block)] + events) == Offered(events)
    decreases |events|
  {
    var all := [InitializeEvent(block)] + events;
    if events == [] {
      assert all == [InitializeEvent(block)] && all[..0] == [];
      assert Run(all) == Step(Run([]), all[0]);
    } else {
      var less, e := events[..|events| - 1], events[|events| - 1];
      assert all[..|all| - 1] == [InitializeEvent(block)] + less && all[|all| - 1] == e;
      IdsStartAtOne(block, less);
      IdsAreABijection([InitializeEvent(block)] + less);
      var st := Run([InitializeEvent(block)] + less);
      if e.UpdateTx? {
        AssignAllFromOne(st, e.validators);
      }
    }
  }

  /** Without it the first validator gets id 0. */
  lemma FirstIdWithoutHook(v: Account, vs: seq<Account>)
    requires |vs| < 65_536
    ensures v in Run([UpdateTx([v] + vs)]).validatorIds && Run([UpdateTx([v] + vs)]).validatorIds[v] == 0
  {
    var e := UpdateTx([v] + vs);
    assert [e][..0] == [] && Run([e]) == Step(Run([]), e);
    AssignFirst(EMPTY, v, vs);
    AssignKeeps(EMPTY, v);
    AssignAllKeeps(Assign(EMPTY, v), vs);
  }

  lemma {:induction false} AssignFirst(st: State, v: Account, vs: seq<Account>)
    ensures AssignAll(st, [v] + vs) == AssignAll(Assign(st, v), vs)
  {
    if vs == [] {
      assert [v] + vs == [v] && [v][..0] == [];
      assert AssignAll(st, [v]) == Assign(AssignAll(st, []), v);
    } else {
      var k := |vs| - 1;
      AssignFirst(st, v, vs[..k]);
      assert ([v] + vs)[..|[v] + vs| - 1] == [v] + vs[..k];
    }
  }

  // ---------------------------------------------------------------- sessions

  /** Session ids are below the counter and never shared between the two maps;
      each signing session refers to a DKG session of the same agent, and each
      DKG session carries a percentage between 50 and 100. */
  ghost predicate SessionsAreSound(st: State) {
    && st.dkgSessions.Keys !! st.signingSessions.Keys
    && (forall i :: i in st.dkgSessions ==> i < st.nextSessionId && 50 <= st.dkgSessions[i].threshold <= 100)
    && (forall i :: i in st.signingSessions ==>
          var s := st.signingSessions[i];
          i < st.nextSessionId && s.dkgId in st.dkgSessions && st.dkgSessions[s.dkgId].nft == s.nft)
  }

  /** A signing session can be created exactly when its agent has a DKG session. */
  lemma SigningNeedsDkg(st: State, nft: NftId, message: string, order: seq<SessionId>)
    requires Elems(order) == st.dkgSessions.Keys
    ensures CreateSigningSession(st, true, nft, message, order).Some? <==>
              exists i :: i in st.dkgSessions && st.dkgSessions[i].nft == nft
  {
    FindsWhatIsThere(st, order, nft);
    forall i | i in st.dkgSessions && st.dkgSessions[i].nft == nft ensures FindSession(st, order, nft).Some? {
      assert i in Elems(order);
    }
  }

  lemma {:induction false} FindsWhatIsThere(st: State, order: seq<SessionId>, nft: NftId)
    ensures var r := FindSession(st, order, nft);
            r.Some? ==> r.value in st.dkgSessions && st.dkgSessions[r.value].nft == nft && FirstFor(st, order, nft, r.value)
    ensures forall i :: i in order && i in st.dkgSessions && st.dkgSessions[i].nft == nft ==>
              FindSession(st, order, nft).Some?
  {
    if order != [] {
      FindsWhatIsThere(st, order[1..], nft);
      if FindSession(st, order, nft).Some? && !Matches(st, order[0], nft) {
        var id, rest := FindSession(st, order, nft).value, order[1..];
        var k :| 0 <= k < |rest| && rest[k] == id && forall j :: 0 <= j < k ==> !Matches(st, rest[j], nft);
        assert order[k + 1] == id && forall j :: 0 <= j < k + 1 ==> j == 0 || order[j] == rest[j - 1];
      }
    }
  }

  ghost predicate Matches(st: State, id: SessionId, nft: NftId) {
    id in st.dkgSessions && st.dkgSessions[id].nft == nft
  }

  /** Nothing before its first occurrence in the list matches. */
  ghost predicate FirstFor(st: State, order: seq<SessionId>, nft: NftId, id: SessionId) {
    exists k :: 0 <= k < |order| && order[k] == id && forall j :: 0 <= j < k ==> !Matches(st, order[j], nft)
  }

  lemma AssigningLeavesSessions(st: State, vs: seq<Account>)
    ensures AssignAll(st, vs).dkgSessions == st.dkgSessions && AssignAll(st, vs).signingSessions == st.signingSessions
    ensures AssignAll(st, vs).nextSessionId == st.nextSessionId
  {
  }

  ghost predicate KeepsSessions(st: State, st': State) {
    && (forall i :: i in st.dkgSessions ==> i in st'.dkgSessions && st'.dkgSessions[i] == st.dkgSessions[i])
    && (forall i :: i in st.signingSessions ==> i in st'.signingSessions && st'.signingSessions[i] == st.signingSessions[i])
  }

  lemma StepKeepsSessions(st: State, e: Event)
    requires SessionsAreSound(st) && st.nextSessionId + 1 < U64
    ensures SessionsAreSound(Step(st, e)) && KeepsSessions(st, Step(st, e))
    ensures Step(st, e).nextSessionId <= st.nextSessionId + 1
  {
    match e
    case InitializeEvent(_) =>
    case UpdateTx(vs) => AssigningLeavesSessions(st, vs);
    case CreateDkgTx(_, _, _, _) =>
    case CreateSigningTx(_, nft, _, order) => FindsWhatIsThere(st, order, nft);
  }

  /** Over every run of fewer than 2^64 - 1 events session ids are fresh, and no
      session is ever overwritten or dropped. */
  lemma {:induction false} SessionsStaySound(events: seq<Event>)
    requires |events| + 1 < U64
    ensures SessionsAreSound(Run(events)) && Run(events).nextSessionId <= |events|
    ensures events != [] ==> KeepsSessions(Run(events[..|events| - 1]), Run(events))
  {
    if events != [] {
      SessionsStaySound(events[..|events| - 1]);
      StepKeepsSessions(Run(events[..|events| - 1]), events[|events| - 1]);
    }
  }

  /** Who may create what: the white-listed account, with a percentage from 50 to
      100 and a list that fits. */
  lemma DkgIsCreatedIff(st: State, w: bool, nft: NftId, threshold: nat, vs: seq<Account>)
    ensures CreateDkgSession(st, w, nft, threshold, vs).Some? <==> w && 50 <= threshold <= 100 && |vs| <= 65_536
  {
  }

  /** Every stored key generation was asked for in exactly these words. */
  ghost predicate DkgAsked(events: seq<Event>, s: DkgSession) {
    exists i :: 0 <= i < |events| && events[i] == CreateDkgTx(true, s.nft, s.threshold, s.participants)
  }

  ghost predicate SigningAsked(events: seq<Event>, s: SigningSession) {
    exists i :: 0 <= i < |events| && events[i].CreateSigningTx? && events[i].allowed
      && events[i].agent == s.nft && events[i].message == s.message
  }

  lemma {:induction false} SessionsAreAsAsked(events: seq<Event>, id: SessionId)
    ensures id in Run(events).dkgSessions ==> DkgAsked(events, Run(events).dkgSessions[id])
    ensures id in Run(events).signingSessions ==> SigningAsked(events, Run(events).signingSessions[id])
  {
    if events != [] {
      var k := |events| - 1;
      var before, e := Run(events[..k]), events[k];
      SessionsAreAsAsked(events[..k], id);
      if e.UpdateTx? {
        AssigningLeavesSessions(before, e.validators);
      }
      if id in before.dkgSessions && Run(events).dkgSessions[id] == before.dkgSessions[id] {
        var i :| 0 <= i < k && events[..k][i] ==
          CreateDkgTx(true, before.dkgSessions[id].nft, before.dkgSessions[id].threshold, before.dkgSessions[id].participants);
        assert events[i] == events[..k][i];
      }
      if id in before.signingSessions && Run(events).signingSessions[id] == before.signingSessions[id] {
        var i :| 0 <= i < k && events[..k][i].CreateSigningTx? && events[..k][i].allowed
          && events[..k][i].agent == before.signingSessions[id].nft && events[..k][i].message == before.signingSessions[id].message;
        assert events[i] == events[..k][i];
      }
    }
  }

  /** An accepted request is stored under the next id, with the asked percentage,
      participants and agent, and stays so in every longer run. */
  lemma DkgIsRecorded(events: seq<Event>, nft: NftId, threshold: nat, vs: seq<Account>, more: seq<Event>)
    requires |events| + |more| + 2 < U64 && 50 <= threshold <= 100 && |vs| <= 65_536
    ensures var id, st := Run(events).nextSessionId, Run(events + [CreateDkgTx(true, nft, threshold, vs)] + more);
            id in st.dkgSessions && st.dkgSessions[id] == DkgSession(vs, nft, threshold)
  {
    var e := CreateDkgTx(true, nft, threshold, vs);
    var asked := events + [e];
    assert asked[..|asked| - 1] == events && asked[|asked| - 1] == e;
    assert Run(asked) == Step(Run(events), e);
    SessionsAreForever(asked, more);
  }

  /** The same for signing: it refers to a key generation of the agent. */
  lemma SigningIsRecorded(events: seq<Event>, nft: NftId, message: string, order: seq<SessionId>, more: seq<Event>)
    requires |events| + |more| + 2 < U64 && Elems(order) == Run(events).dkgSessions.Keys
    requires exists i :: i in Run(events).dkgSessions && Run(events).dkgSessions[i].nft == nft
    ensures var id, st := Run(events).nextSessionId, Run(events + [CreateSigningTx(true, nft, message, order)] + more);
            && id in st.signingSessions && st.signingSessions[id].nft == nft && st.signingSessions[id].message == message
            && st.signingSessions[id].dkgId in st.dkgSessions && st.dkgSessions[st.signingSessions[id].dkgId].nft == nft
  {
    var e := CreateSigningTx(true, nft, message, order);
    var asked := events + [e];
    assert asked[..|asked| - 1] == events && asked[|asked| - 1] == e;
    assert Run(asked) == Step(Run(events), e);
    SigningNeedsDkg(Run(events), nft, message, order);
    FindsWhatIsThere(Run(events), order, nft);
    SessionsAreForever(asked, more);
  }

  lemma {:induction false} SessionsAreForever(events: seq<Event>, more: seq<Event>)
    requires |events| + |more| + 1 < U64
    ensures KeepsSessions(Run(events), Run(events + more))
    decreases |more|
  {
    if more == [] {
      assert events + more == events;
    } else {
      var less, all := more[..|more| - 1], events + more;
      assert all[..|all| - 1] == events + less;
      SessionsAreForever(events, less);
      SessionsStaySound(all);
    }
  }

  // ---------------------------------------------------------------- thresholds

  /** How the client turns a session's percentage into a number of signers. */
  function SignersFor(percentage: nat, n: nat): nat {
    percentage * n / 100
  }

  /** The result is a usable threshold exactly when it does not round to zero,
      which any session of at least two participants guarantees. */
  lemma AcceptedThresholdsAreUsable(events: seq<Event>, id: SessionId)
    requires |events| + 1 < U64 && id in Run(events).dkgSessions
    ensures var s := Run(events).dkgSessions[id];
            var n := |s.participants|;
            && 100 * SignersFor(s.threshold, n) <= s.threshold * n < 100 * SignersFor(s.threshold, n) + 100
            && (1 <= SignersFor(s.threshold, n) <= n <==> s.threshold * n >= 100)
            && (n >= 2 ==> 1 <= SignersFor(s.threshold, n) <= n)
            && (n == 1 ==> (1 <= SignersFor(s.threshold, n) <==> s.threshold == 100))
  {
    SessionsStaySound(events);
    var s := Run(events).dkgSessions[id];
    PercentageBounds(s.threshold, |s.participants|);
  }

  lemma PercentageBounds(p: nat, n: nat)
    requires 50 <= p <= 100
    ensures p * n / 100 <= n && (p * n / 100 >= 1 <==> p * n >= 100) && (n >= 2 ==> p * n >= 100)
  {
  }
}
