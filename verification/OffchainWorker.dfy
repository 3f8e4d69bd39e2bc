/** The offchain worker of pallets/uomi-engine: which request it runs next, how
    it keeps runs from overlapping, and how long it lets one run. */
module OffchainWorker {
  import opened Prelude

  type RequestId = nat

  /** MAX_INPUTS_MANAGED_PER_BLOCK */
  const MAX_INPUTS: nat := 100
  /** Seconds per block. */
  const BLOCK_TIME: nat := 3

  // ---------------------------------------------------------------- earliest deadline first

  datatype Assignment = Assignment(id: RequestId, expiration: nat)

  /** What the chain knows about one validator's work: the requests in storage
      iteration order, the expiration of those assigned to the validator, and
      those for which its output is already stored. */
  datatype Desk = Desk(inputs: seq<RequestId>, expirations: map<RequestId, nat>, done: set<RequestId>)

  const NOTHING := Assignment(0, 0)

  /** The inputs that one run looks at. */
  function Window(d: Desk): seq<RequestId> {
    if |d.inputs| <= MAX_INPUTS then d.inputs else d.inputs[..MAX_INPUTS]
  }

  predicate IsPending(d: Desk, r: RequestId) {
    r in d.expirations && r !in d.done
  }

  function Pending(d: Desk): set<RequestId> {
    set r | r in Window(d) && IsPending(d, r)
  }

  /** The assignment that must run next: pending, with the least expiration, and
      among equals the one that iteration meets first. */
  ghost predicate IsEarliest(d: Desk, a: Assignment) {
    var w := Window(d);
    exists i :: 0 <= i < |w| && a.id == w[i] && IsPending(d, w[i]) && a.expiration == d.expirations[w[i]] &&
      forall j :: 0 <= j < |w| && IsPending(d, w[j]) ==>
        a.expiration <= d.expirations[w[j]] && (j < i ==> a.expiration < d.expirations[w[j]])
  }

  lemma EarliestIsUnique(d: Desk, a: Assignment, b: Assignment)
    requires IsEarliest(d, a) && IsEarliest(d, b)
    ensures a == b
  {
  }

  predicate Sorted(s: seq<Assignment>) {
    forall i, j :: 0 <= i < j < |s| ==> s[i].expiration <= s[j].expiration
  }

  /** The first of the least. */
  function Least(s: seq<Assignment>): Assignment
    requires s != []
  {
    var n := |s| - 1;
    if n == 0 then s[0]
    else
      var m := Least(s[..n]);
      if s[n].expiration < m.expiration then s[n] else m
  }

  lemma {:induction false} LeastIsFirst(s: seq<Assignment>) returns (i: nat)
    requires s != []
    ensures i < |s| && s[i] == Least(s)
    ensures forall j :: 0 <= j < |s| ==> s[i].expiration <= s[j].expiration
    ensures forall j :: 0 <= j < i ==> s[i].expiration < s[j].expiration
  {
    var n := |s| - 1;
    if n == 0 {
      i := 0;
    } else {
      i := LeastIsFirst(s[..n]);
      if s[n].expiration < s[i].expiration {
        i := n;
      }
    }
  }

  /** Behind everything that does not expire later. */
  method Insert(r: seq<Assignment>, a: Assignment) returns (r': seq<Assignment>)
    requires Sorted(r)
    ensures |r'| == |r| + 1 && Sorted(r') && multiset(r') == multiset(r) + multiset{a}
    ensures r'[0] == if r == [] || a.expiration < r[0].expiration then a else r[0]
  {
    var k := |r|;
    while k > 0 && r[k - 1].expiration > a.expiration
      invariant 0 <= k <= |r|
      invariant forall i :: k <= i < |r| ==> r[i].expiration > a.expiration
    {
      k := k - 1;
    }
    r' := r[..k] + [a] + r[k..];
    InsertKeepsSorted(r, a, k);
    InsertAdds(r, a, k);
  }

  lemma InsertKeepsSorted(r: seq<Assignment>, a: Assignment, k: nat)
    requires Sorted(r) && k <= |r|
    requires k > 0 ==> r[k - 1].expiration <= a.expiration
    requires k < |r| ==> a.expiration <= r[k].expiration
    ensures Sorted(r[..k] + [a] + r[k..])
  {
  }

  lemma InsertAdds(r: seq<Assignment>, a: Assignment, k: nat)
    requires k <= |r|
    ensures multiset(r[..k] + [a] + r[k..]) == multiset(r) + multiset{a}
  {
    assert r == r[..k] + r[k..];
  }

  /** The library's stable sort, as an insertion sort. */
  method SortByExpiration(s: seq<Assignment>) returns (r: seq<Assignment>)
    ensures Sorted(r) && multiset(r) == multiset(s)
    ensures s != [] ==> r != [] && r[0] == Least(s)
  {
    r := [];
    for n := 0 to |s|
      invariant |r| == n && Sorted(r) && multiset(r) == multiset(s[..n])
      invariant n > 0 ==> r[0] == Least(s[..n])
    {
      PrefixNext(s, n);
      r := Insert(r, s[n]);
    }
    assert s[..|s|] == s;
  }

  lemma PrefixNext(s: seq<Assignment>, n: nat)
    requires n < |s|
    ensures multiset(s[..n + 1]) == multiset(s[..n]) + multiset{s[n]}
    ensures Least(s[..n + 1]) == if n == 0 || s[n].expiration < Least(s[..n]).expiration then s[n] else Least(s[..n])
  {
    assert s[..n + 1] == s[..n] + [s[n]] && s[..n + 1][..n] == s[..n];
  }

  /** The pending requests of the window, in iteration order. */
  method Collect(d: Desk) returns (found: seq<Assignment>)
    ensures exists at: seq<nat> :: Collected(d, |Window(d)|, found, at)
  {
    var w := Window(d);
    found := [];
    ghost var at: seq<nat> := [];
    for n := 0 to |w|
      invariant Collected(d, n, found, at)
    {
      if w[n] in d.expirations && w[n] !in d.done {
        found := found + [Assignment(w[n], d.expirations[w[n]])];
        ghost var before := at;
        at := at + [n];
        assert at[|at| - 1] == n && forall j :: j in before ==> j in at;
      }
    }
  }

  /** `found` has exactly the pending requests among the first n of the window;
      the i-th of them stands at position at[i]. */
  ghost predicate Collected(d: Desk, n: nat, found: seq<Assignment>, at: seq<nat>) {
    var w := Window(d);
    && n <= |w| && |at| == |found|
    && (forall i :: 0 <= i < |at| ==>
          at[i] < n && IsPending(d, w[at[i]]) && found[i] == Assignment(w[at[i]], d.expirations[w[at[i]]]))
    && (forall i, j :: 0 <= i < j < |at| ==> at[i] < at[j])
    && (forall j :: 0 <= j < n && IsPending(d, w[j]) ==> j in at)
  }

  lemma LeastIsEarliest(d: Desk, found: seq<Assignment>, at: seq<nat>)
    requires Collected(d, |Window(d)|, found, at) && found != []
    ensures IsEarliest(d, Least(found))
  {
    var w := Window(d);
    var i := LeastIsFirst(found);
    var a := found[i];
    forall j | 0 <= j < |w| && IsPending(d, w[j])
      ensures a.expiration <= d.expirations[w[j]] && (j < at[i] ==> a.expiration < d.expirations[w[j]])
    {
      var k :| 0 <= k < |at| && at[k] == j;
      assert found[k] == Assignment(w[j], d.expirations[w[j]]);
    }
  }

  method FindRequest(d: Desk) returns (a: Assignment)
    ensures Pending(d) == {} ==> a == NOTHING
    ensures Pending(d) != {} ==> IsEarliest(d, a)
  {
    var found := Collect(d);
    ghost var at: seq<nat> :| Collected(d, |Window(d)|, found, at);
    if found == [] {
      return NOTHING;
    }
    LeastIsEarliest(d, found, at);
    assert Window(d)[at[0]] in Pending(d);
    var sorted := SortByExpiration(found);
    a := sorted[0];
  }

  /** Repeated runs whose outputs get stored, until a run finds nothing. */
  ghost predicate IsDrain(d: Desk, picks: seq<Assignment>)
    decreases |picks|
  {
    if picks == [] then Pending(d) == {}
    else IsEarliest(d, picks[0]) && IsDrain(d.(done := d.done + {picks[0].id}), picks[1..])
  }

  function Ids(picks: seq<Assignment>): seq<RequestId> {
    seq(|picks|, i requires 0 <= i < |picks| => picks[i].id)
  }

  lemma EarliestIsPending(d: Desk, a: Assignment)
    requires IsEarliest(d, a)
    ensures a.id in Pending(d) && a.expiration == d.expirations[a.id]
    ensures forall r :: r in Pending(d) ==> a.expiration <= d.expirations[r]
    ensures Pending(d.(done := d.done + {a.id})) == Pending(d) - {a.id}
  {
  }

  /** Draining runs every pending request exactly once, in non-decreasing order
      of expiration, with the right expirations, and nothing else. */
  lemma {:induction false} DrainRunsEachOnce(d: Desk, picks: seq<Assignment>)
    requires IsDrain(d, picks)
    ensures Lists(Ids(picks), Pending(d)) && Sorted(picks)
    ensures forall a :: a in picks ==> a.id in d.expirations && a.expiration == d.expirations[a.id]
    decreases |picks|
  {
    if picks == [] {
      assert Elems(Ids(picks)) == {};
    } else {
      var d', a, rest := d.(done := d.done + {picks[0].id}), picks[0], picks[1..];
      EarliestIsPending(d, a);
      DrainRunsEachOnce(d', rest);
      assert Ids(picks) == [a.id] + Ids(rest);
      assert Elems(Ids(picks)) == {a.id} + Elems(Ids(rest));
      assert a.id !in Elems(Ids(rest));
      forall b | b in rest ensures a.expiration <= b.expiration {
        var i :| 0 <= i < |rest| && rest[i] == b;
        assert Ids(rest)[i] == b.id && b.id in Elems(Ids(rest));
      }
    }
  }

  /** With at most 100 stored requests the window hides nothing. */
  lemma WindowIsEverything(d: Desk)
    requires |d.inputs| <= MAX_INPUTS
    ensures forall r :: r in d.inputs && IsPending(d, r) <==> r in Pending(d)
  {
  }

  /** Draining in the model of the worker loop; the worker stops when it reads
      request id 0, which no stored request may therefore have. */
  method DrainDesk(d: Desk) returns (picks: seq<Assignment>)
    requires 0 !in d.inputs
    ensures IsDrain(d, picks)
    decreases |Pending(d)|
  {
    var a := FindRequest(d);
    if a.id == 0 {
      assert Pending(d) == {} by {
        if Pending(d) != {} {
          EarliestIsPending(d, a);
        }
      }
      return [];
    }
    EarliestIsPending(d, a);
    SubsetCount(Pending(d) - {a.id}, Pending(d));
    var rest := DrainDesk(d.(done := d.done + {a.id}));
    picks := [a] + rest;
  }

  /** The sentinel is unambiguous exactly because id 0 is refused on entry. */
  lemma SentinelMeansNothingPending(d: Desk, a: Assignment)
    requires 0 !in d.inputs
    requires if Pending(d) == {} then a == NOTHING else IsEarliest(d, a)
    ensures a.id == 0 <==> Pending(d) == {}
  {
  }

  // ---------------------------------------------------------------- accepting requests

  datatype Refusal = ZeroRequest | ZeroAddress | ZeroNft | DuplicateRequest | Unfit

  /** The guards of `run_request`, in order. `fit` stands for the remaining
      checks: size limits, pinning the input file and the agent file's status. */
  function RunRequest(inputs: set<RequestId>, id: RequestId, address: nat, nft: nat, fit: bool): (set<RequestId>, Option<Refusal>) {
    if id == 0 then (inputs, Some(ZeroRequest))
    else if address == 0 then (inputs, Some(ZeroAddress))
    else if nft == 0 then (inputs, Some(ZeroNft))
    else if id in inputs then (inputs, Some(DuplicateRequest))
    else if !fit then (inputs, Some(Unfit))
    else (inputs + {id}, None)
  }

  datatype Ask = Ask(id: RequestId, address: nat, nft: nat, fit: bool)

  function Accepted(asks: seq<Ask>): set<RequestId> {
    if asks == [] then {}
    else
      var k := asks[|asks| - 1];
      RunRequest(Accepted(asks[..|asks| - 1]), k.id, k.address, k.nft, k.fit).0
  }

  /** An id, an address, an agent and everything else in order. */
  ghost predicate Proper(k: Ask) {
    k.id != 0 && k.address != 0 && k.nft != 0 && k.fit
  }

  /** A request is stored if and only if somebody asked properly; request 0 never
      is. */
  lemma {:induction false} AcceptedIff(asks: seq<Ask>, r: RequestId)
    ensures r in Accepted(asks) <==> exists i :: 0 <= i < |asks| && asks[i].id == r && Proper(asks[i])
  {
    if asks != [] {
      var n := |asks| - 1;
      AcceptedIff(asks[..n], r);
      if i :| 0 <= i < n && asks[..n][i].id == r && Proper(asks[..n][i]) {
        assert asks[i].id == r && Proper(asks[i]);
      }
      if i :| 0 <= i < |asks| && asks[i].id == r && Proper(asks[i]) {
        assert i < n ==> asks[..n][i] == asks[i];
      }
    }
  }

  lemma NoRequestZero(asks: seq<Ask>)
    ensures 0 !in Accepted(asks)
    ensures forall r :: r in Accepted(asks) ==> exists k :: k in asks && k.id == r && k.address != 0 && k.nft != 0 && k.fit
  {
    AcceptedIff(asks, 0);
    forall r | r in Accepted(asks)
      ensures exists k :: k in asks && k.id == r && k.address != 0 && k.nft != 0 && k.fit
    {
      AcceptedIff(asks, r);
      var i :| 0 <= i < |asks| && asks[i].id == r && Proper(asks[i]);
      assert asks[i] in asks;
    }
  }

  /** The first unmet condition is the one reported, and a refusal stores nothing. */
  lemma RefusalNames(inputs: set<RequestId>, k: Ask)
    ensures var (after, refusal) := RunRequest(inputs, k.id, k.address, k.nft, k.fit);
            && (refusal == None <==> Proper(k) && k.id !in inputs)
            && (refusal == Some(ZeroRequest) <==> k.id == 0)
            && (refusal == Some(ZeroAddress) <==> k.id != 0 && k.address == 0)
            && (refusal == Some(ZeroNft) <==> k.id != 0 && k.address != 0 && k.nft == 0)
            && (refusal == Some(DuplicateRequest) <==> k.id != 0 && k.address != 0 && k.nft != 0 && k.id in inputs)
            && (refusal.Some? ==> after == inputs)
  {
  }

  // ---------------------------------------------------------------- the semaphore

  type WorkerId = nat

  /** Where a worker is in `offchain_run_agents`. A worker that panics inside
      the section never leaves it. */
  datatype Stage = Outside | Searching | Loading | Running | Crashed

  datatype Section = Section(flag: bool, stages: map<WorkerId, Stage>)

  datatype Move = Enter | FindNothing | Find | LoadFails | Load | Finish | Crash

  const IDLE := Section(false, map[])

  function StageOf(s: Section, w: WorkerId): Stage {
    if w in s.stages then s.stages[w] else Outside
  }

  /** One atomic move of worker w; a move that its stage does not allow is void.
      Entering is a compare-and-exchange, and every orderly exit clears the flag. */
  function Step(s: Section, w: WorkerId, m: Move): Section {
    match (StageOf(s, w), m)
    case (Outside, Enter) => if s.flag then s else Section(true, s.stages[w := Searching])
    case (Searching, FindNothing) => Section(false, s.stages[w := Outside])
    case (Searching, Find) => s.(stages := s.stages[w := Loading])
    case (Loading, LoadFails) => Section(false, s.stages[w := Outside])
    case (Loading, Load) => s.(stages := s.stages[w := Running])
    case (Running, Finish) => Section(false, s.stages[w := Outside])
    case (Searching, Crash) => s.(stages := s.stages[w := Crashed])
    case (Loading, Crash) => s.(stages := s.stages[w := Crashed])
    case (Running, Crash) => s.(stages := s.stages[w := Crashed])
    case _ => s
  }

  function Play(s: Section, moves: seq<(WorkerId, Move)>): Section {
    if moves == [] then s
    else
      var n := |moves| - 1;
      Step(Play(s, moves[..n]), moves[n].0, moves[n].1)
  }

  ghost predicate Exclusive(s: Section) {
    && (s.flag <==> exists w :: StageOf(s, w) != Outside)
    && (forall w, w' :: StageOf(s, w) != Outside && StageOf(s, w') != Outside ==> w == w')
  }

  /** In every interleaving of any number of workers at most one is inside the
      section, and the flag is set exactly when one is. */
  lemma {:induction false} AtMostOneInside(moves: seq<(WorkerId, Move)>)
    ensures Exclusive(Play(IDLE, moves))
  {
    if moves != [] {
      var n := |moves| - 1;
      AtMostOneInside(moves[..n]);
      StepIsExclusive(Play(IDLE, moves[..n]), moves[n].0, moves[n].1);
    }
  }

  lemma StepIsExclusive(s: Section, w: WorkerId, m: Move)
    requires Exclusive(s)
    ensures Exclusive(Step(s, w, m))
  {
    var t := Step(s, w, m);
    assert forall v :: v != w ==> StageOf(t, v) == StageOf(s, v);
    if StageOf(t, w) != Outside {
      assert t.flag;
    } else if StageOf(s, w) != Outside {
      assert !t.flag;
    }
  }

  /** The section is free for the next worker after every orderly exit. */
  lemma FreeWhenNobodyInside(moves: seq<(WorkerId, Move)>, w: WorkerId)
    requires forall v :: StageOf(Play(IDLE, moves), v) == Outside
    ensures StageOf(Step(Play(IDLE, moves), w, Enter), w) == Searching
  {
    AtMostOneInside(moves);
  }

  /** From a free section a worker gets through all its stages, and each of its
      three orderly exits leaves the section free again. */
  lemma OrderlyRun(moves: seq<(WorkerId, Move)>, w: WorkerId)
    requires forall v :: StageOf(Play(IDLE, moves), v) == Outside
    ensures var s := Step(Play(IDLE, moves), w, Enter);
            var loading := Step(s, w, Find);
            var running := Step(loading, w, Load);
            && StageOf(s, w) == Searching && StageOf(loading, w) == Loading && StageOf(running, w) == Running
            && AllOut(Step(s, w, FindNothing)) && AllOut(Step(loading, w, LoadFails)) && AllOut(Step(running, w, Finish))
  {
    AtMostOneInside(moves);
    var idle := Play(IDLE, moves);
    var s := Step(idle, w, Enter);
    var loading := Step(s, w, Find);
    var running := Step(loading, w, Load);
    AloneStays(idle, w, Enter);
    AloneStays(s, w, Find);
    AloneStays(s, w, FindNothing);
    AloneStays(loading, w, Load);
    AloneStays(loading, w, LoadFails);
    AloneStays(running, w, Finish);
  }

  ghost predicate Alone(s: Section, w: WorkerId) {
    forall v :: v != w ==> StageOf(s, v) == Outside
  }

  lemma AloneStays(s: Section, w: WorkerId, m: Move)
    requires Alone(s, w)
    ensures Alone(Step(s, w, m), w)
  {
    assert forall v :: v != w ==> StageOf(Step(s, w, m), v) == StageOf(s, v);
  }

  /** Nobody is inside and the next worker may enter. */
  ghost predicate AllOut(s: Section) {
    !s.flag && forall v :: StageOf(s, v) == Outside
  }

  /** A panic inside the section closes it for good. */
  lemma {:induction false} CrashClosesForever(moves: seq<(WorkerId, Move)>, crashed: WorkerId, more: seq<(WorkerId, Move)>, w: WorkerId)
    requires StageOf(Play(IDLE, moves), crashed) == Crashed
    ensures StageOf(Play(IDLE, moves + more), crashed) == Crashed
    ensures w != crashed ==> StageOf(Play(IDLE, moves + more), w) == Outside
  {
    AtMostOneInside(moves + more);
    if more == [] {
      assert moves + more == moves;
    } else {
      var n := |more| - 1;
      CrashClosesForever(moves, crashed, more[..n], w);
      assert (moves + more)[..|moves + more| - 1] == moves + more[..n];
    }
  }

  // ---------------------------------------------------------------- the time budget

  const U64: nat := 0x1_0000_0000_0000_0000

  /** `Underflow` and `Overflow` are the arithmetic panics. */
  datatype Clock = Underflow | Expired | Overflow | Armed(deadline: nat, budget: nat)

  /** The epoch deadline in tenths of a second and the ticker's budget in
      milliseconds for one run. */
  function ArmClock(start: nat, expiration: nat, maxTime: nat): Clock {
    if maxTime < 3 then Underflow
    else if expiration < start then Expired
    else
      var seconds := Min(expiration - start, maxTime - 3) * BLOCK_TIME % U64;
      if seconds * 1000 >= U64 then Overflow else Armed(seconds * 10, seconds * 1000)
  }

  function Min(a: nat, b: nat): nat {
    if a <= b then a else b
  }

  method Ticker(budget: nat) returns (ticks: nat)
    ensures 100 * ticks >= budget && (ticks > 0 ==> 100 * (ticks - 1) < budget)
  {
    ticks := 0;
    var passed := 0;
    while passed < budget
      invariant passed == 100 * ticks && (ticks > 0 ==> 100 * (ticks - 1) < budget)
    {
      ticks := ticks + 1;
      passed := passed + 100;
    }
  }

  /** The ticker fires exactly as many epochs as were armed: thirty per block
      for the shorter of the time to expiration and the agent's maximum less 3. */
  method RunClock(start: nat, expiration: nat, maxTime: nat) returns (clock: Clock, ticks: nat)
    ensures clock == ArmClock(start, expiration, maxTime)
    ensures clock.Armed? ==> ticks == clock.deadline
    ensures clock == Underflow <==> maxTime < 3
    ensures clock == Expired <==> maxTime >= 3 && expiration < start
    ensures maxTime >= 3 && expiration >= start ==> clock == Overflow || clock.Armed?
    ensures maxTime >= 3 && expiration >= start && Min(expiration - start, maxTime - 3) * BLOCK_TIME * 1000 < U64 ==>
              clock.Armed? && ticks == 30 * Min(expiration - start, maxTime - 3)
  {
    clock := ArmClock(start, expiration, maxTime);
    ticks := 0;
    if clock.Armed? {
      ticks := Ticker(clock.budget);
    }
  }
}
