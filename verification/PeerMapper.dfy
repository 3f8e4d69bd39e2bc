/** Who is who in a session: the peer mapper of client/tss/src/lib.rs. */
module PeerMapping {
  import opened Prelude
  import opened FileNames

  type PeerId = string
  type Account = string

  /** `byIdentifier` is shared with the session manager; `byIndex` numbers the
      participants of a session by position, from 1. */
  datatype Peers = Peers(
    peers: map<PeerId, Account>,
    byIdentifier: map<SessionId, map<Identifier, Account>>,
    byIndex: map<SessionId, map<nat, Account>>,
    validatorIds: map<Account, nat>)

  /** The iteration orders of the hash maps, which are arbitrary. */
  datatype Orders = Orders(
    numbers: map<nat, Account> -> seq<nat>,
    peers: map<PeerId, Account> -> seq<PeerId>)
  {
    ghost predicate Valid() {
      && (forall m: map<nat, Account> :: Elems(numbers(m)) == m.Keys)
      && (forall m: map<PeerId, Account> :: Elems(peers(m)) == m.Keys)
    }
  }

  /** An identifier lookup aborts when a validator id is not a valid identifier. */
  datatype Lookup = Found(id: Identifier) | Missing | Aborts

  /** The first key, in iteration order, under which the account is stored. */
  function FirstWith<K(==)>(order: seq<K>, m: map<K, Account>, a: Account): Option<K> {
    if order == [] then None
    else if order[0] in m && m[order[0]] == a then Some(order[0])
    else FirstWith(order[1..], m, a)
  }

  // ---------------------------------------------------------------- creating sessions

  /** The identifier of participant number i: its validator id, or i + 1. Ids
      that do not fit in 16 bits become 0, and 0 is not an identifier. */
  function IdentifierFor(p: Peers, a: Account, i: nat): Option<Identifier> {
    var v := if a in p.validatorIds then p.validatorIds[a] else i + 1;
    if 0 < v <= U16_MAX then Some(v) else None
  }

  /** Adds participant number i to whatever the session already has. */
  function Extended(p: Peers, s: SessionId, i: nat, a: Account): Option<Peers> {
    var id := IdentifierFor(p, a, i);
    if id.None? || i + 1 > U16_MAX then None
    else
      Some(p.(byIdentifier := p.byIdentifier[s := IdentifierTable(p, s)[id.value := a]],
              byIndex := p.byIndex[s := IndexTable(p, s)[i + 1 := a]]))
  }

  function AddParticipants(p: Peers, s: SessionId, participants: seq<Account>): Option<Peers> {
    if participants == [] then
      Some(p.(byIdentifier := p.byIdentifier[s := IdentifierTable(p, s)], byIndex := p.byIndex[s := IndexTable(p, s)]))
    else
      var i := |participants| - 1;
      var before := AddParticipants(p, s, participants[..i]);
      if before.None? then None else Extended(before.value, s, i, participants[i])
  }

  function IdentifierTable(p: Peers, s: SessionId): map<Identifier, Account> {
    if s in p.byIdentifier then p.byIdentifier[s] else map[]
  }

  function IndexTable(p: Peers, s: SessionId): map<nat, Account> {
    if s in p.byIndex then p.byIndex[s] else map[]
  }

  // ---------------------------------------------------------------- lookups

  function PeerOfAccount(o: Orders, p: Peers, a: Account): Option<PeerId> {
    FirstWith(o.peers(p.peers), p.peers, a)
  }

  function PeerOfIndex(o: Orders, p: Peers, s: SessionId, i: nat): Option<PeerId> {
    if i in IndexTable(p, s) then PeerOfAccount(o, p, IndexTable(p, s)[i]) else None
  }

  function IndexOfAccount(o: Orders, p: Peers, s: SessionId, a: Account): Option<nat> {
    FirstWith(o.numbers(IndexTable(p, s)), IndexTable(p, s), a)
  }

  function IndexOfPeer(o: Orders, p: Peers, s: SessionId, peer: PeerId): Option<nat> {
    if peer in p.peers then IndexOfAccount(o, p, s, p.peers[peer]) else None
  }

  /** The validator id wins over the session's own table. */
  function IdentifierOfAccount(o: Orders, p: Peers, s: SessionId, a: Account): Lookup {
    if a in p.validatorIds then
      var v := if p.validatorIds[a] <= U16_MAX then p.validatorIds[a] else U16_MAX;
      if v == 0 then Aborts else Found(v)
    else
      var r := FirstWith(o.numbers(IdentifierTable(p, s)), IdentifierTable(p, s), a);
      if r.Some? then Found(r.value) else Missing
  }

  function IdentifierOfPeer(o: Orders, p: Peers, s: SessionId, peer: PeerId): Lookup {
    if peer in p.peers then IdentifierOfAccount(o, p, s, p.peers[peer]) else Missing
  }

  // ---------------------------------------------------------------- the mapper

  class PeerMapper {
    var peers: map<PeerId, Account>
    var byIdentifier: map<SessionId, map<Identifier, Account>>
    var byIndex: map<SessionId, map<nat, Account>>
    var validatorIds: map<Account, nat>

    function View(): Peers
      reads this
    {
      Peers(peers, byIdentifier, byIndex, validatorIds)
    }

    constructor ()
      ensures View() == Peers(map[], map[], map[], map[])
    {
      peers, byIdentifier, byIndex, validatorIds := map[], map[], map[], map[];
    }

    method AddPeer(peer: PeerId, account: Account)
      modifies this`peers
      ensures View() == old(View()).(peers := old(peers)[peer := account])
    {
      peers := peers[peer := account];
    }

    method SetValidatorId(account: Account, id: nat)
      modifies this`validatorIds
      ensures View() == old(View()).(validatorIds := old(validatorIds)[account := id])
    {
      validatorIds := validatorIds[account := id];
    }

    /** The identifier table is shared with the session manager, which replaces
        and drops whole sessions. */
    method SetParticipants(s: SessionId, table: map<Identifier, Account>)
      modifies this`byIdentifier
      ensures View() == old(View()).(byIdentifier := old(byIdentifier)[s := table])
    {
      byIdentifier := byIdentifier[s := table];
    }

    method RemoveParticipants(s: SessionId)
      modifies this`byIdentifier
      ensures View() == old(View()).(byIdentifier := old(byIdentifier) - {s})
    {
      byIdentifier := byIdentifier - {s};
    }

    /** Returns false when the creation aborts half-way. */
    method CreateSession(s: SessionId, participants: seq<Account>) returns (ok: bool)
      modifies this`byIdentifier, this`byIndex
      ensures ok == AddParticipants(old(View()), s, participants).Some?
      ensures ok ==> View() == AddParticipants(old(View()), s, participants).value
    {
      byIdentifier := byIdentifier[s := IdentifierTable(View(), s)];
      byIndex := byIndex[s := IndexTable(View(), s)];
      for i := 0 to |participants|
        invariant AddParticipants(old(View()), s, participants[..i]) == Some(View())
      {
        assert participants[..i + 1][..i] == participants[..i];
        ok := AddParticipant(s, i, participants[i]);
        if !ok {
          AbortsForGood(old(View()), s, participants, i + 1);
          return;
        }
      }
      assert participants[..|participants|] == participants;
      ok := true;
    }

    method AddParticipant(s: SessionId, i: nat, a: Account) returns (ok: bool)
      modifies this`byIdentifier, this`byIndex
      ensures ok == Extended(old(View()), s, i, a).Some?
      ensures ok ==> View() == Extended(old(View()), s, i, a).value
    {
      var id := IdentifierFor(View(), a, i);
      if id.None? || i + 1 > U16_MAX {
        return false;
      }
      var indices: map<nat, Account> := IndexTable(View(), s)[i + 1 := a];
      byIdentifier := byIdentifier[s := IdentifierTable(View(), s)[id.value := a]];
      byIndex := byIndex[s := indices];
      ok := true;
    }

    method FindNumber(order: seq<nat>, m: map<nat, Account>, a: Account) returns (r: Option<nat>)
      ensures r == FirstWith(order, m, a)
    {
      for i := 0 to |order|
        invariant FirstWith(order, m, a) == FirstWith(order[i..], m, a)
      {
        if order[i] in m && m[order[i]] == a {
          return Some(order[i]);
        }
      }
      r := None;
    }

    method FindPeer(o: Orders, a: Account) returns (r: Option<PeerId>)
      ensures r == PeerOfAccount(o, View(), a)
    {
      var order := o.peers(peers);
      for i := 0 to |order|
        invariant FirstWith(order, peers, a) == FirstWith(order[i..], peers, a)
      {
        if order[i] in peers && peers[order[i]] == a {
          return Some(order[i]);
        }
      }
      r := None;
    }

    method GetPeerFromIndex(o: Orders, s: SessionId, i: nat) returns (r: Option<PeerId>)
      ensures r == PeerOfIndex(o, View(), s, i)
    {
      r := None;
      if s in byIndex && i in byIndex[s] {
        r := FindPeer(o, byIndex[s][i]);
      }
    }

    method GetIndexFromPeer(o: Orders, s: SessionId, peer: PeerId) returns (r: Option<nat>)
      ensures r == IndexOfPeer(o, View(), s, peer)
    {
      r := None;
      if peer in peers {
        if s !in byIndex {
          FirstWithFinds(o.numbers(map[]), map[], peers[peer]);
          return None;
        }
        r := FindNumber(o.numbers(byIndex[s]), byIndex[s], peers[peer]);
      }
    }

    method GetIdentifierFromAccount(o: Orders, s: SessionId, a: Account) returns (r: Lookup)
      ensures r == IdentifierOfAccount(o, View(), s, a)
    {
      if a in validatorIds {
        var v := if validatorIds[a] <= U16_MAX then validatorIds[a] else U16_MAX;
        return if v == 0 then Aborts else Found(v);
      }
      if s !in byIdentifier {
        FirstWithFinds(o.numbers(map[]), map[], a);
        return Missing;
      }
      var k := FindNumber(o.numbers(byIdentifier[s]), byIdentifier[s], a);
      r := if k.Some? then Found(k.value) else Missing;
    }

    method GetIdentifierFromPeer(o: Orders, s: SessionId, peer: PeerId) returns (r: Lookup)
      ensures r == IdentifierOfPeer(o, View(), s, peer)
    {
      if peer !in peers {
        return Missing;
      }
      r := GetIdentifierFromAccount(o, s, peers[peer]);
    }
  }

  /** A creation that aborts on a prefix of the participants aborts. */
  lemma {:induction false} AbortsForGood(p: Peers, s: SessionId, participants: seq<Account>, k: nat)
    requires k <= |participants| && AddParticipants(p, s, participants[..k]).None?
    ensures AddParticipants(p, s, participants).None?
    decreases |participants|
  {
    if k == |participants| {
      assert participants[..k] == participants;
    } else {
      var init := participants[..|participants| - 1];
      assert init[..k] == participants[..k];
      AbortsForGood(p, s, init, k);
    }
  }

  // ---------------------------------------------------------------- round trips

  lemma {:induction false} FirstWithFinds<K>(order: seq<K>, m: map<K, Account>, a: Account)
    ensures var r := FirstWith(order, m, a);
            r.Some? ==> r.value in m && m[r.value] == a && r.value in order
    ensures forall k :: k in order && k in m && m[k] == a ==> FirstWith(order, m, a).Some?
  {
    if order != [] {
      FirstWithFinds(order[1..], m, a);
    }
  }

  /** When only one key holds the account, every iteration order finds it. */
  lemma OnlyKeyIsFound<K>(order: seq<K>, m: map<K, Account>, a: Account, k: K)
    requires Elems(order) == m.Keys
    requires k in m && m[k] == a && forall k' :: k' in m && m[k'] == a ==> k' == k
    ensures FirstWith(order, m, a) == Some(k)
  {
    FirstWithFinds(order, m, a);
    assert k in Elems(order);
  }

  ghost predicate NumbersByPosition(m: map<nat, Account>, participants: seq<Account>) {
    && (forall i :: i in m ==> 1 <= i <= |participants| && m[i] == participants[i - 1])
    && (forall i: nat :: 1 <= i <= |participants| ==> i in m)
  }

  /** A session created once numbers its participants by position. */
  lemma {:induction false} IndexTableOf(p: Peers, s: SessionId, participants: seq<Account>)
    requires s !in p.byIndex && AddParticipants(p, s, participants).Some?
    ensures var q := AddParticipants(p, s, participants).value;
            && q.peers == p.peers && q.validatorIds == p.validatorIds
            && s in q.byIndex && s in q.byIdentifier
            && NumbersByPosition(q.byIndex[s], participants)
  {
    if participants != [] {
      IndexTableOf(p, s, participants[..|participants| - 1]);
    }
  }

  /** Everybody in the session has announced exactly one peer. */
  ghost predicate OnePeerEach(p: Peers, participants: seq<Account>) {
    && (forall a :: a in participants ==> exists q :: q in p.peers && p.peers[q] == a)
    && (forall q, q' :: q in p.peers && q' in p.peers && p.peers[q] == p.peers[q'] && p.peers[q] in participants ==> q == q')
  }

  /** For a session created once with distinct participants and one peer each,
      peer ids and indices are in one-to-one correspondence over 1..n, in every
      iteration order. */
  lemma IndicesAndPeersInvert(o: Orders, p: Peers, s: SessionId, participants: seq<Account>, q: Peers, i: nat, peer: PeerId)
    requires o.Valid() && NoDup(participants) && OnePeerEach(p, participants)
    requires s !in p.byIndex && AddParticipants(p, s, participants) == Some(q)
    ensures 1 <= i <= |participants| ==>
              var its := PeerOfIndex(o, q, s, i);
              its.Some? && IndexOfPeer(o, q, s, its.value) == Some(i)
    ensures peer in p.peers && p.peers[peer] in participants ==>
              var k := IndexOfPeer(o, q, s, peer);
              k.Some? && 1 <= k.value <= |participants| && PeerOfIndex(o, q, s, k.value) == Some(peer)
  {
    IndexTableOf(p, s, participants);
    if 1 <= i <= |participants| {
      assert participants[i - 1] in participants;
      var its :| its in p.peers && p.peers[its] == participants[i - 1];
      PairMatches(o, q, s, participants, i, its);
    }
    if peer in p.peers && p.peers[peer] in participants {
      var k :| 0 <= k < |participants| && participants[k] == p.peers[peer];
      PairMatches(o, q, s, participants, k + 1, peer);
    }
  }

  lemma PairMatches(o: Orders, q: Peers, s: SessionId, participants: seq<Account>, i: nat, peer: PeerId)
    requires o.Valid() && NoDup(participants) && OnePeerEach(q, participants)
    requires s in q.byIndex && NumbersByPosition(q.byIndex[s], participants)
    requires 1 <= i <= |participants| && peer in q.peers && q.peers[peer] == participants[i - 1]
    ensures PeerOfIndex(o, q, s, i) == Some(peer) && IndexOfPeer(o, q, s, peer) == Some(i)
  {
    OnlyKeyIsFound(o.peers(q.peers), q.peers, participants[i - 1], peer);
    OnlyKeyIsFound(o.numbers(q.byIndex[s]), q.byIndex[s], participants[i - 1], i);
  }

  /** `position`: where the account first stands in the list. */
  function Position(participants: seq<Account>, a: Account): Option<nat> {
    if participants == [] then None
    else if participants[0] == a then Some(0)
    else
      var r := Position(participants[1..], a);
      if r.Some? then Some(r.value + 1) else None
  }

  lemma {:induction false} PositionIs(participants: seq<Account>, a: Account)
    ensures match Position(participants, a)
            case Some(k) => k < |participants| && participants[k] == a && a !in participants[..k]
            case None => a !in participants
  {
    if participants != [] && participants[0] != a {
      PositionIs(participants[1..], a);
      var r := Position(participants[1..], a);
      if r.Some? {
        assert participants[..r.value + 1] == [participants[0]] + participants[1..][..r.value];
      } else {
        assert participants == [participants[0]] + participants[1..];
      }
    }
  }

  /** The party id under which a node creates its key generation phase is the
      index under which the others know its peer. */
  lemma LocalPartyIdMatches(o: Orders, p: Peers, s: SessionId, participants: seq<Account>, q: Peers, me: Account, localPeer: PeerId)
    requires o.Valid() && NoDup(participants) && OnePeerEach(p, participants)
    requires s !in p.byIndex && AddParticipants(p, s, participants) == Some(q)
    requires localPeer in p.peers && p.peers[localPeer] == me
    ensures var mine := Position(participants, me);
            IndexOfPeer(o, q, s, localPeer) == if mine.Some? then Some(mine.value + 1) else None
  {
    PositionIs(participants, me);
    IndexTableOf(p, s, participants);
    if me in participants {
      PairMatches(o, q, s, participants, Position(participants, me).value + 1, localPeer);
    } else {
      FirstWithFinds(o.numbers(q.byIndex[s]), q.byIndex[s], me);
    }
  }

  // ---------------------------------------------------------------- identifiers

  /** The number under which participant i is entered: its validator id if the
      node knows one, otherwise its position, counted from 1. */
  function NumberOf(p: Peers, participants: seq<Account>, i: nat): nat
    requires i < |participants|
  {
    if participants[i] in p.validatorIds then p.validatorIds[participants[i]] else i + 1
  }

  /** A session can be created if and only if everybody's number and position fit
      in 16 bits and nobody's number is 0; otherwise the node panics. */
  lemma {:induction false} CreationSucceedsIff(p: Peers, s: SessionId, participants: seq<Account>)
    ensures AddParticipants(p, s, participants).Some? <==>
              |participants| <= 65535 && forall i :: 0 <= i < |participants| ==> 0 < NumberOf(p, participants, i) <= 65535
    ensures AddParticipants(p, s, participants).Some? ==>
              var q := AddParticipants(p, s, participants).value;
              q.peers == p.peers && q.validatorIds == p.validatorIds && s in q.byIdentifier
  {
    if participants != [] {
      var k := |participants| - 1;
      CreationSucceedsIff(p, s, participants[..k]);
      assert forall i :: 0 <= i < k ==> NumberOf(p, participants[..k], i) == NumberOf(p, participants, i);
      assert AddParticipants(p, s, participants).Some? ==> 0 < NumberOf(p, participants, k) <= 65535;
    }
  }

  /** Participant i is the last one with number id. */
  ghost predicate LastWith(p: Peers, participants: seq<Account>, i: int, id: Identifier) {
    && 0 <= i < |participants| && NumberOf(p, participants, i) == id
    && forall j :: i < j < |participants| ==> NumberOf(p, participants, j) != id
  }

  /** The identifier table of a new session: under each number the last participant
      who has it, and nothing else. */
  lemma {:induction false} IdentifierTableOf(p: Peers, s: SessionId, participants: seq<Account>, id: Identifier)
    requires s !in p.byIdentifier && AddParticipants(p, s, participants).Some?
    ensures var q := AddParticipants(p, s, participants).value;
            && s in q.byIdentifier
            && (id in q.byIdentifier[s] ==>
                  exists i :: LastWith(p, participants, i, id) && q.byIdentifier[s][id] == participants[i])
            && (forall i :: 0 <= i < |participants| && NumberOf(p, participants, i) == id ==> id in q.byIdentifier[s])
  {
    if participants != [] {
      var k := |participants| - 1;
      var init := participants[..k];
      CreationSucceedsIff(p, s, init);
      IdentifierTableOf(p, s, init, id);
      var q := AddParticipants(p, s, init).value;
      assert forall i :: 0 <= i < k ==> NumberOf(p, init, i) == NumberOf(p, participants, i);
      TableNext(p, s, participants, q);
      if NumberOf(p, participants, k) == id {
        assert LastWith(p, participants, k, id);
      } else if id in q.byIdentifier[s] {
        var i :| LastWith(p, init, i, id) && q.byIdentifier[s][id] == init[i];
        assert LastWith(p, participants, i, id);
      }
    }
  }

  lemma TableNext(p: Peers, s: SessionId, participants: seq<Account>, q: Peers)
    requires participants != [] && AddParticipants(p, s, participants).Some?
    requires AddParticipants(p, s, participants[..|participants| - 1]) == Some(q)
    ensures s in q.byIdentifier && s in AddParticipants(p, s, participants).value.byIdentifier
    ensures var k := |participants| - 1;
            AddParticipants(p, s, participants).value.byIdentifier[s] == q.byIdentifier[s][NumberOf(p, participants, k) := participants[k]]
  {
    CreationSucceedsIff(p, s, participants[..|participants| - 1]);
  }

  ghost predicate DistinctNumbers(p: Peers, participants: seq<Account>) {
    forall i, j :: 0 <= i < j < |participants| ==> NumberOf(p, participants, i) != NumberOf(p, participants, j)
  }

  /** Mixing validator ids with positions can give two participants one number: all
      distinct participants are in the table if and only if that does not happen. */
  lemma EveryoneIsEnteredIff(p: Peers, s: SessionId, participants: seq<Account>, q: Peers)
    requires s !in p.byIdentifier && NoDup(participants) && AddParticipants(p, s, participants) == Some(q)
    ensures s in q.byIdentifier
    ensures (forall a :: a in participants ==> a in q.byIdentifier[s].Values) <==> DistinctNumbers(p, participants)
  {
    IdentifierTableOf(p, s, participants, 0);
    if DistinctNumbers(p, participants) {
      forall a | a in participants ensures a in q.byIdentifier[s].Values {
        var i :| 0 <= i < |participants| && participants[i] == a;
        EnteredUnder(p, s, participants, q, i);
      }
    } else {
      var i, j :| 0 <= i < j < |participants| && NumberOf(p, participants, i) == NumberOf(p, participants, j);
      OverwrittenIsMissing(p, s, participants, q, i, j);
      assert participants[i] in participants;
    }
  }

  lemma EnteredUnder(p: Peers, s: SessionId, participants: seq<Account>, q: Peers, i: nat)
    requires s !in p.byIdentifier && AddParticipants(p, s, participants) == Some(q)
    requires DistinctNumbers(p, participants) && i < |participants|
    ensures s in q.byIdentifier
    ensures var id := NumberOf(p, participants, i); id in q.byIdentifier[s] && q.byIdentifier[s][id] == participants[i]
  {
    var id := NumberOf(p, participants, i);
    IdentifierTableOf(p, s, participants, id);
    var k :| LastWith(p, participants, k, id) && q.byIdentifier[s][id] == participants[k];
    assert k == i;
  }

  lemma OverwrittenIsMissing(p: Peers, s: SessionId, participants: seq<Account>, q: Peers, i: nat, j: nat)
    requires s !in p.byIdentifier && NoDup(participants) && AddParticipants(p, s, participants) == Some(q)
    requires i < j < |participants| && NumberOf(p, participants, i) == NumberOf(p, participants, j)
    ensures s in q.byIdentifier && participants[i] !in q.byIdentifier[s].Values
  {
    IdentifierTableOf(p, s, participants, 0);
    forall id: nat | id in q.byIdentifier[s] ensures q.byIdentifier[s][id] != participants[i] {
      IdentifierTableOf(p, s, participants, id);
      var k :| LastWith(p, participants, k, id) && q.byIdentifier[s][id] == participants[k];
      assert k != i;
    }
  }

  /** In a session created once with distinct participants and distinct numbers,
      every lookup of participant i, by account or by peer and in any traversal
      order, gives its number. */
  lemma IdentifiersAreFound(o: Orders, p: Peers, s: SessionId, participants: seq<Account>, q: Peers, i: nat, peer: PeerId)
    requires o.Valid() && s !in p.byIdentifier && NoDup(participants) && AddParticipants(p, s, participants) == Some(q)
    requires DistinctNumbers(p, participants) && i < |participants|
    ensures IdentifierOfAccount(o, q, s, participants[i]) == Found(NumberOf(p, participants, i))
    ensures peer in p.peers && p.peers[peer] == participants[i] ==>
              IdentifierOfPeer(o, q, s, peer) == Found(NumberOf(p, participants, i))
  {
    var a, id := participants[i], NumberOf(p, participants, i);
    CreationSucceedsIff(p, s, participants);
    assert 0 < id <= 65535 && q.validatorIds == p.validatorIds;
    if a !in p.validatorIds {
      FoundInTable(o, p, s, participants, q, i);
    }
    assert IdentifierOfAccount(o, q, s, a) == Found(id);
  }

  lemma FoundInTable(o: Orders, p: Peers, s: SessionId, participants: seq<Account>, q: Peers, i: nat)
    requires o.Valid() && s !in p.byIdentifier && NoDup(participants) && AddParticipants(p, s, participants) == Some(q)
    requires DistinctNumbers(p, participants) && i < |participants|
    ensures FirstWith(o.numbers(IdentifierTable(q, s)), IdentifierTable(q, s), participants[i]) == Some(NumberOf(p, participants, i))
  {
    EnteredUnder(p, s, participants, q, i);
    var table: map<nat, Account>, id: nat := q.byIdentifier[s], NumberOf(p, participants, i);
    forall k: nat | k in table && table[k] == participants[i] ensures k == id {
      IdentifierTableOf(p, s, participants, k);
      var j :| LastWith(p, participants, j, k) && table[k] == participants[j];
      assert j == i;
    }
    OnlyKeyIsFound<nat>(o.numbers(table), table, participants[i], id);
  }
}
