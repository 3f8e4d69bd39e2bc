/** The account mappings of pallets/unified-accounts.

    A native account can claim one EVM address, for a storage fee that is burned.
    Claiming empties the default account of that address, which may kill it and
    so run the mapping clean-up hook in the middle of the claim. */
module UnifiedAccounts {
  import opened Prelude

  type Account = nat
  type EvmAddress = nat
  type Signature = nat

  /** The runtime constants, the default mappings (hashes) and signature recovery. */
  datatype Config = Config(
    existentialDeposit: nat,
    storageFee: nat,
    defaultAccount: EvmAddress -> Account,
    defaultEvm: Account -> EvmAddress,
    recover: (Account, Signature) -> Option<EvmAddress>)

  /** The two maps and the ledger. An account exists while it is in the ledger. */
  datatype State = State(
    evmToNative: map<EvmAddress, Account>,
    nativeToEvm: map<Account, EvmAddress>,
    balances: map<Account, nat>)

  datatype Error = AlreadyMapped | UnexpectedSignatureFormat | InvalidSignature | FundsUnavailable

  datatype Result = Ok(state: State) | Err(error: Error)

  // ---------------------------------------------------------------- operations

  function Balance(st: State, who: Account): nat {
    if who in st.balances then st.balances[who] else 0
  }

  /** What can leave an account without closing it. */
  function Spare(c: Config, st: State, who: Account): nat {
    if Balance(st, who) <= c.existentialDeposit then 0 else Balance(st, who) - c.existentialDeposit
  }

  function Burned(c: Config, st: State, who: Account): State {
    if who in st.balances && c.storageFee <= st.balances[who]
    then st.(balances := st.balances[who := st.balances[who] - c.storageFee])
    else st
  }

  /** The account-killed hook. */
  function Unmapped(st: State, who: Account): State {
    if who in st.nativeToEvm
    then st.(nativeToEvm := st.nativeToEvm - {who}, evmToNative := st.evmToNative - {st.nativeToEvm[who]})
    else st
  }

  /** Closing an account drops its balance and runs the hook. */
  function Killed(st: State, who: Account): State {
    Unmapped(st.(balances := st.balances - {who}), who)
  }

  /** Everything `from` owns goes to `to`; a transfer to oneself is void. */
  function Emptied(st: State, from: Account, to: Account): State {
    if from !in st.balances || from == to then st
    else
      var killed := Killed(st, from);
      killed.(balances := killed.balances[to := Balance(killed, to) + st.balances[from]])
  }

  function Mapped(st: State, who: Account, evm: EvmAddress): State {
    st.(evmToNative := st.evmToNative[evm := who], nativeToEvm := st.nativeToEvm[who := evm])
  }

  function Claim(c: Config, st: State, who: Account, evm: EvmAddress, sig: Signature): Result {
    if who in st.nativeToEvm || evm in st.evmToNative then Err(AlreadyMapped)
    else if c.recover(who, sig).None? then Err(UnexpectedSignatureFormat)
    else if c.recover(who, sig).value != evm then Err(InvalidSignature)
    else if Spare(c, st, who) < c.storageFee then Err(FundsUnavailable)
    else Ok(Mapped(Emptied(Burned(c, st, who), c.defaultAccount(evm), who), who, evm))
  }

  function ClaimDefault(c: Config, st: State, who: Account): Result {
    var evm := c.defaultEvm(who);
    if who in st.nativeToEvm || evm in st.evmToNative then Err(AlreadyMapped)
    else if Spare(c, st, who) < c.storageFee then Err(FundsUnavailable)
    else Ok(Mapped(Burned(c, st, who), who, evm))
  }

  /** Issuing into an account, or refusing to leave it below the deposit. */
  function Endowed(c: Config, st: State, who: Account, amount: nat): State {
    if Balance(st, who) + amount < c.existentialDeposit then st
    else st.(balances := st.balances[who := Balance(st, who) + amount])
  }

  // ---------------------------------------------------------------- the pallet

  class Pallet {
    const config: Config
    var evmToNative: map<EvmAddress, Account>
    var nativeToEvm: map<Account, EvmAddress>
    var balances: map<Account, nat>

    function View(): State
      reads this
    {
      State(evmToNative, nativeToEvm, balances)
    }

    constructor (config: Config, balances: map<Account, nat>)
      ensures this.config == config && View() == State(map[], map[], balances)
    {
      this.config := config;
      this.balances := balances;
      evmToNative, nativeToEvm := map[], map[];
    }

    method ClaimEvmAddress(who: Account, evm: EvmAddress, sig: Signature) returns (error: Option<Error>)
      modifies this
      ensures match Claim(config, old(View()), who, evm, sig)
              case Ok(st) => error == None && View() == st
              case Err(e) => error == Some(e) && View() == old(View())
    {
      if who in nativeToEvm || evm in evmToNative {
        return Some(AlreadyMapped);
      }
      var address := config.recover(who, sig);
      if address.None? {
        return Some(UnexpectedSignatureFormat);
      }
      if evm != address.value {
        return Some(InvalidSignature);
      }
      error := ChargeStorageFee(who);
      if error.Some? {
        return;
      }
      var default := config.defaultAccount(evm);
      if default in balances {
        TransferAll(default, who);
      }
      evmToNative := evmToNative[evm := who];
      nativeToEvm := nativeToEvm[who := evm];
    }

    method ClaimDefaultEvmAddress(who: Account) returns (error: Option<Error>)
      modifies this
      ensures match ClaimDefault(config, old(View()), who)
              case Ok(st) => error == None && View() == st
              case Err(e) => error == Some(e) && View() == old(View())
    {
      var evm := config.defaultEvm(who);
      if who in nativeToEvm || evm in evmToNative {
        return Some(AlreadyMapped);
      }
      error := ChargeStorageFee(who);
      if error.Some? {
        return;
      }
      evmToNative := evmToNative[evm := who];
      nativeToEvm := nativeToEvm[who := evm];
    }

    method ChargeStorageFee(who: Account) returns (error: Option<Error>)
      modifies this`balances
      ensures error == if Spare(config, old(View()), who) < config.storageFee then Some(FundsUnavailable) else None
      ensures View() == if error.Some? then old(View()) else Burned(config, old(View()), who)
    {
      if Spare(config, View(), who) < config.storageFee {
        return Some(FundsUnavailable);
      }
      if who in balances {
        balances := balances[who := balances[who] - config.storageFee];
      }
      error := None;
    }

    method TransferAll(from: Account, to: Account)
      requires from in balances
      modifies this
      ensures View() == Emptied(old(View()), from, to)
    {
      if from != to {
        var amount := balances[from];
        Kill(from);
        balances := balances[to := (if to in balances then balances[to] else 0) + amount];
      }
    }

    method Kill(who: Account)
      modifies this
      ensures View() == Killed(old(View()), who)
    {
      balances := balances - {who};
      OnKilledAccount(who);
    }

    method OnKilledAccount(who: Account)
      modifies this`evmToNative, this`nativeToEvm
      ensures View() == Unmapped(old(View()), who)
    {
      if who in nativeToEvm {
        var evm := nativeToEvm[who];
        nativeToEvm := nativeToEvm - {who};
        evmToNative := evmToNative - {evm};
        nativeToEvm := nativeToEvm - {who};
      }
    }
  }

  // ---------------------------------------------------------------- invariant

  /** The two maps are mutual inverses. */
  ghost predicate Inverse(st: State) {
    && (forall e :: e in st.evmToNative ==> st.evmToNative[e] in st.nativeToEvm && st.nativeToEvm[st.evmToNative[e]] == e)
    && (forall a :: a in st.nativeToEvm ==> st.nativeToEvm[a] in st.evmToNative && st.evmToNative[st.nativeToEvm[a]] == a)
  }

  /** Only existing accounts are mapped, and no account is below the deposit. */
  ghost predicate Live(c: Config, st: State) {
    && st.nativeToEvm.Keys <= st.balances.Keys
    && (forall a :: a in st.balances ==> st.balances[a] >= c.existentialDeposit)
  }

  lemma EmptiedKeeps(c: Config, st: State, from: Account, to: Account)
    requires Inverse(st)
    ensures Inverse(Emptied(st, from, to)) && (Live(c, st) ==> Live(c, Emptied(st, from, to)))
    ensures to in st.balances ==> to in Emptied(st, from, to).balances
    ensures to !in st.nativeToEvm ==> to !in Emptied(st, from, to).nativeToEvm
    ensures forall e :: e !in st.evmToNative ==> e !in Emptied(st, from, to).evmToNative
  {
  }

  /** A successful claim, kill in the middle included, keeps the maps mutual
      inverses, over existing accounts exactly when the claimer ends up existing;
      a positive fee is enough for that. */
  lemma ClaimKeeps(c: Config, st: State, who: Account, evm: EvmAddress, sig: Signature)
    requires Inverse(st) && Claim(c, st, who, evm, sig).Ok?
    ensures var st' := Claim(c, st, who, evm, sig).state;
            && Inverse(st')
            && st'.nativeToEvm[who] == evm && st'.evmToNative[evm] == who
            && (Live(c, st) ==>
                  && (Live(c, st') <==> who in st.balances || c.defaultAccount(evm) in st.balances)
                  && (c.storageFee > 0 ==> Live(c, st') && st'.balances[who] >= c.existentialDeposit))
  {
    var burned := Burned(c, st, who);
    EmptiedKeeps(c, burned, c.defaultAccount(evm), who);
  }

  lemma ClaimDefaultKeeps(c: Config, st: State, who: Account)
    requires Inverse(st) && ClaimDefault(c, st, who).Ok?
    ensures var st' := ClaimDefault(c, st, who).state;
            && Inverse(st')
            && st'.nativeToEvm[who] == c.defaultEvm(who) && st'.evmToNative[c.defaultEvm(who)] == who
            && (Live(c, st) ==>
                  && (Live(c, st') <==> who in st.balances)
                  && (c.storageFee > 0 ==> Live(c, st') && st'.balances[who] >= c.existentialDeposit))
  {
  }

  // ---------------------------------------------------------------- who may claim what

  /** Both sides of the pair are free. */
  ghost predicate Free(st: State, who: Account, evm: EvmAddress) {
    && who !in st.nativeToEvm && evm !in st.evmToNative
  }

  /** The account can pay the fee and stay above the deposit. */
  ghost predicate CanPay(c: Config, st: State, who: Account) {
    c.storageFee == 0 || (who in st.balances && st.balances[who] >= c.existentialDeposit + c.storageFee)
  }

  /** A claim succeeds if and only if both sides are free, the signature by the
      claimer's payload recovers to exactly the claimed address, and the claimer can
      pay; otherwise the first unmet condition names the error. */
  lemma ClaimSucceedsIff(c: Config, st: State, who: Account, evm: EvmAddress, sig: Signature)
    ensures var r := Claim(c, st, who, evm, sig);
            && (r.Ok? <==> Free(st, who, evm) && c.recover(who, sig) == Some(evm) && CanPay(c, st, who))
            && (r == Err(AlreadyMapped) <==> !Free(st, who, evm))
            && (r == Err(UnexpectedSignatureFormat) <==> Free(st, who, evm) && c.recover(who, sig) == None)
            && (r == Err(InvalidSignature) <==> Free(st, who, evm) && c.recover(who, sig) !in {None, Some(evm)})
            && (r == Err(FundsUnavailable) <==> Free(st, who, evm) && c.recover(who, sig) == Some(evm) && !CanPay(c, st, who))
  {
  }

  lemma ClaimDefaultSucceedsIff(c: Config, st: State, who: Account)
    ensures var r := ClaimDefault(c, st, who);
            && (r.Ok? <==> Free(st, who, c.defaultEvm(who)) && CanPay(c, st, who))
            && (r == Err(AlreadyMapped) <==> !Free(st, who, c.defaultEvm(who)))
            && (r == Err(FundsUnavailable) <==> Free(st, who, c.defaultEvm(who)) && !CanPay(c, st, who))
  {
  }

  // ---------------------------------------------------------------- runs

  datatype Event =
    | ClaimTx(who: Account, evm: EvmAddress, sig: Signature)
    | ClaimDefaultTx(claimer: Account)
    | KillEvent(victim: Account)
    | EndowEvent(receiver: Account, amount: nat)

  function Step(c: Config, st: State, e: Event): State {
    match e
    case ClaimTx(who, evm, sig) =>
      var r := Claim(c, st, who, evm, sig);
      if r.Ok? then r.state else st
    case ClaimDefaultTx(who) =>
      var r := ClaimDefault(c, st, who);
      if r.Ok? then r.state else st
    case KillEvent(who) => Killed(st, who)
    case EndowEvent(who, amount) => Endowed(c, st, who, amount)
  }

  function Run(c: Config, st: State, events: seq<Event>): State {
    if events == [] then st
    else Step(c, Run(c, st, events[..|events| - 1]), events[|events| - 1])
  }

  lemma StepKeeps(c: Config, st: State, e: Event)
    requires Inverse(st)
    ensures Inverse(Step(c, st, e))
    ensures c.storageFee > 0 && Live(c, st) ==> Live(c, Step(c, st, e))
  {
    match e
    case ClaimTx(who, evm, sig) =>
      if Claim(c, st, who, evm, sig).Ok? {
        ClaimKeeps(c, st, who, evm, sig);
      }
    case ClaimDefaultTx(who) =>
      if ClaimDefault(c, st, who).Ok? {
        ClaimDefaultKeeps(c, st, who);
      }
    case KillEvent(who) =>
    case EndowEvent(who, amount) =>
  }

  /** Every interleaving of claims, default claims, kills and endowments keeps
      the two maps mutual inverses and, with a positive fee, over existing
      accounts only. */
  lemma {:induction false} MapsStayInverse(c: Config, balances: map<Account, nat>, events: seq<Event>)
    requires forall a :: a in balances ==> balances[a] >= c.existentialDeposit
    ensures var st := Run(c, State(map[], map[], balances), events);
            Inverse(st) && (c.storageFee > 0 ==> Live(c, st))
  {
    if events != [] {
      MapsStayInverse(c, balances, events[..|events| - 1]);
      StepKeeps(c, Run(c, State(map[], map[], balances), events[..|events| - 1]), events[|events| - 1]);
    }
  }

  /** Somebody proved to own the address, or it is the account's own default. */
  ghost predicate Proven(c: Config, a: Account, evm: EvmAddress) {
    evm == c.defaultEvm(a) || exists sig: Signature :: c.recover(a, sig) == Some(evm)
  }

  /** In every run each mapped address is the default of its account or was proven
      by a signature made for that account. */
  lemma {:induction false} MappingsAreProven(c: Config, balances: map<Account, nat>, events: seq<Event>, a: Account)
    ensures var st := Run(c, State(map[], map[], balances), events);
            a in st.nativeToEvm ==> Proven(c, a, st.nativeToEvm[a])
  {
    if events != [] {
      MappingsAreProven(c, balances, events[..|events| - 1], a);
      StepKeepsProven(c, Run(c, State(map[], map[], balances), events[..|events| - 1]), events[|events| - 1], a);
    }
  }

  lemma StepKeepsProven(c: Config, st: State, e: Event, a: Account)
    requires a in st.nativeToEvm ==> Proven(c, a, st.nativeToEvm[a])
    ensures var st' := Step(c, st, e); a in st'.nativeToEvm ==> Proven(c, a, st'.nativeToEvm[a])
  {
    if e.ClaimTx? && Claim(c, st, e.who, e.evm, e.sig).Ok? {
      ClaimSucceedsIff(c, st, e.who, e.evm, e.sig);
    }
  }

  /** A free claim can be made by an account that does not exist, so the mapped
      accounts exist in every run exactly when a claim costs something. */
  lemma MappedAccountsExistIffFee(c: Config, balances: map<Account, nat>)
    requires forall a :: a in balances ==> balances[a] >= c.existentialDeposit
    ensures (forall events: seq<Event> :: Live(c, Run(c, State(map[], map[], balances), events))) <==> c.storageFee > 0
  {
    var start := State(map[], map[], balances);
    if c.storageFee > 0 {
      forall events: seq<Event> ensures Live(c, Run(c, start, events)) {
        MapsStayInverse(c, balances, events);
      }
    } else {
      var who := Beyond(balances.Keys);
      var event := ClaimDefaultTx(who);
      assert Run(c, start, [event]) == Step(c, Run(c, start, []), event);
      assert who in Run(c, start, [event]).nativeToEvm && who !in Run(c, start, [event]).balances;
    }
  }

  /** No finite set has every account. */
  lemma {:induction false} Beyond(s: set<Account>) returns (who: Account)
    ensures forall a :: a in s ==> a < who
    decreases |s|
  {
    if s == {} {
      who := 0;
    } else {
      var a :| a in s;
      var rest := Beyond(s - {a});
      who := if rest <= a then a + 1 else rest;
      forall x | x in s ensures x < who {
        assert x == a || x in s - {a};
      }
    }
  }

  /** Does this event close the account? A claim closes the default account of
      the address it claims. */
  ghost predicate Closes(c: Config, st: State, e: Event, a: Account) {
    match e
    case ClaimTx(who, evm, sig) => Claim(c, st, who, evm, sig).Ok? && c.defaultAccount(evm) == a && a != who && a in st.balances
    case ClaimDefaultTx(_) => false
    case KillEvent(victim) => victim == a
    case EndowEvent(_, _) => false
  }

  /** Once connected, an account keeps its address until it is closed. */
  lemma MappingIsForLife(c: Config, st: State, e: Event, a: Account)
    requires Inverse(st) && Live(c, st) && a in st.nativeToEvm
    ensures if Closes(c, st, e, a) then a !in Step(c, st, e).nativeToEvm
            else a in Step(c, st, e).nativeToEvm && Step(c, st, e).nativeToEvm[a] == st.nativeToEvm[a]
  {
  }

  // ---------------------------------------------------------------- the ledger

  ghost function Total(balances: map<Account, nat>): nat
    decreases |balances|
  {
    if balances == map[] then 0
    else
      var a :| a in balances;
      balances[a] + Total(balances - {a})
  }

  lemma {:induction false} TotalWithout(balances: map<Account, nat>, a: Account)
    requires a in balances
    ensures Total(balances) == balances[a] + Total(balances - {a})
    decreases |balances|
  {
    var b :| b in balances && Total(balances) == balances[b] + Total(balances - {b});
    if a != b {
      TotalWithout(balances - {b}, a);
      TotalWithout(balances - {a}, b);
      assert balances - {b} - {a} == balances - {a} - {b};
    }
  }

  lemma TotalUpdate(balances: map<Account, nat>, a: Account, x: nat)
    ensures Total(balances[a := x]) == Total(balances) - (if a in balances then balances[a] else 0) + x
  {
    TotalWithout(balances[a := x], a);
    assert balances[a := x] - {a} == balances - {a};
    if a in balances {
      TotalWithout(balances, a);
    } else {
      assert balances - {a} == balances;
    }
  }

  lemma EmptiedConserves(st: State, from: Account, to: Account)
    ensures Total(Emptied(st, from, to).balances) == Total(st.balances)
  {
    if from in st.balances && from != to {
      TotalWithout(st.balances, from);
      TotalUpdate(st.balances - {from}, to, Balance(Killed(st, from), to) + st.balances[from]);
    }
  }

  /** A successful claim of either kind lowers the total issuance by exactly the
      storage fee, whatever moves between accounts on the way. */
  lemma ClaimsBurnTheFee(c: Config, st: State, who: Account, evm: EvmAddress, sig: Signature)
    ensures Claim(c, st, who, evm, sig).Ok? ==>
              Total(Claim(c, st, who, evm, sig).state.balances) == Total(st.balances) - c.storageFee
    ensures ClaimDefault(c, st, who).Ok? ==>
              Total(ClaimDefault(c, st, who).state.balances) == Total(st.balances) - c.storageFee
  {
    if Spare(c, st, who) >= c.storageFee {
      TotalUpdate(st.balances, who, Balance(st, who) - c.storageFee);
      if who in st.balances {
        assert Total(Burned(c, st, who).balances) == Total(st.balances) - c.storageFee;
      }
      EmptiedConserves(Burned(c, st, who), c.defaultAccount(evm), who);
    }
  }

  /** Where the money goes: the claimer pays the fee and receives everything the
      default account held; nobody else is touched. */
  lemma ClaimMovesTheDefaultBalance(c: Config, st: State, who: Account, evm: EvmAddress, sig: Signature, other: Account)
    requires Claim(c, st, who, evm, sig).Ok?
    ensures var st', default := Claim(c, st, who, evm, sig).state, c.defaultAccount(evm);
            && Balance(st', who) == Balance(st, who) - c.storageFee + (if default == who then 0 else Balance(st, default))
            && (default != who ==> Balance(st', default) == 0)
            && (other != who && other != default ==> Balance(st', other) == Balance(st, other))
  {
  }

  // ---------------------------------------------------------------- reading the maps

  /** The address mapper and the account lookup. */
  function IntoAccount(c: Config, st: State, evm: EvmAddress): Account {
    if evm in st.evmToNative then st.evmToNative[evm] else c.defaultAccount(evm)
  }

  function IntoEvm(c: Config, st: State, who: Account): EvmAddress {
    if who in st.nativeToEvm then st.nativeToEvm[who] else c.defaultEvm(who)
  }

  /** A default claim costs the fee and moves nothing. */
  lemma ClaimDefaultMovesNothing(c: Config, st: State, who: Account, other: Account)
    requires ClaimDefault(c, st, who).Ok?
    ensures var st' := ClaimDefault(c, st, who).state;
            && Balance(st', who) == Balance(st, who) - c.storageFee
            && (other != who ==> Balance(st', other) == Balance(st, other))
  {
  }

  /** Without a mapping both directions fall back to the default. */
  lemma LookupsFallBack(c: Config, st: State, a: Account, e: EvmAddress)
    ensures a !in st.nativeToEvm ==> IntoEvm(c, st, a) == c.defaultEvm(a)
    ensures e !in st.evmToNative ==> IntoAccount(c, st, e) == c.defaultAccount(e)
  {
  }

  /** On mapped accounts and addresses the two readings invert each other, and
      claiming is what makes an address resolve to the claimer. */
  lemma LookupsInvert(c: Config, st: State, a: Account, e: EvmAddress)
    requires Inverse(st)
    ensures a in st.nativeToEvm ==> IntoAccount(c, st, IntoEvm(c, st, a)) == a
    ensures e in st.evmToNative ==> IntoEvm(c, st, IntoAccount(c, st, e)) == e
    ensures a in st.nativeToEvm && IntoEvm(c, st, a) == e ==> IntoAccount(c, st, e) == a
  {
  }
}
