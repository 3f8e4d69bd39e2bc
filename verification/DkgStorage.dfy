/** File names and the in-memory store of the signature client
    (client/tss/src/dkghelpers.rs). */
module FileNames {
  import opened Prelude

  type SessionId = nat
  /** A participant of one session. */
  type Identifier = nat

  datatype StorageType =
    | DKGRound1SecretPackage
    | DKGRound2SecretPackage
    | DKGRound1IdentifierPackage
    | DKGRound2IdentifierPackage
    | Key
    | PubKey
    | SigningCommitments
    | SigningNonces
    | SignatureShare
    | SigningPackage
    | EcdsaKeys
    | EcdsaOfflineOutput
    | EcdsaOnlineOutput

  // ---------------------------------------------------------------- decimal numbers

  function Digit(d: nat): char
    requires d < 10
  {
    '0' + (d as char)
  }

  function Decimal(n: nat): string {
    if n < 10 then [Digit(n)] else Decimal(n / 10) + [Digit(n % 10)]
  }

  /** Reads a number back. */
  function Number(s: string): int {
    if s == [] then 0 else Number(s[..|s| - 1]) * 10 + (s[|s| - 1] as int - '0' as int)
  }

  lemma {:induction false} DecimalReadsBack(n: nat)
    ensures Number(Decimal(n)) == n
    ensures Decimal(n) != [] && '/' !in Decimal(n)
  {
    if n < 10 {
      assert [Digit(n)][..0] == [];
    } else {
      DecimalReadsBack(n / 10);
      assert Decimal(n)[..|Decimal(n)| - 1] == Decimal(n / 10);
    }
  }

  // ---------------------------------------------------------------- names

  /** These kinds are stored per participant; asking for their name without one
      aborts. */
  predicate NeedsDigest(t: StorageType) {
    t in {Key, PubKey, EcdsaKeys, EcdsaOfflineOutput, EcdsaOnlineOutput}
  }

  /** The part of a file name after the session directory. `digest` is the
      hexadecimal SHA-256 of the participant's identifier. */
  function Suffix(t: StorageType, digest: Option<string>): string
    requires NeedsDigest(t) ==> digest.Some?
  {
    match t
    case DKGRound1SecretPackage => "/dkg/round1/secret"
    case DKGRound2SecretPackage => "/dkg/round2/secret"
    case DKGRound1IdentifierPackage => if digest.Some? then "/round1/" + digest.value else "/round1"
    case DKGRound2IdentifierPackage => if digest.Some? then "/round2/" + digest.value else "/round2"
    case Key => "/frost/keys/" + digest.value
    case PubKey => "/frost/pubkeys/" + digest.value
    case SigningCommitments => "/signing/commitments"
    case SigningNonces => "/signing/nonces"
    case SignatureShare => "/signing/share"
    case SigningPackage => "/signing/package"
    case EcdsaKeys => "/ecdsa/keys/" + digest.value
    case EcdsaOfflineOutput => "/ecdsa/offline/" + digest.value
    case EcdsaOnlineOutput => "/ecdsa/online/" + digest.value
  }

  function FormatFilename(session: SessionId, t: StorageType, digest: Option<string>): string
    requires NeedsDigest(t) ==> digest.Some?
  {
    "sessions/" + Decimal(session) + Suffix(t, digest)
  }

  /** The digest as far as the name shows it. */
  function Shown(t: StorageType, digest: Option<string>): Option<string> {
    if NeedsDigest(t) || t in {DKGRound1IdentifierPackage, DKGRound2IdentifierPackage} then digest else None
  }

  // ---------------------------------------------------------------- injectivity

  /** Reads the kind off a suffix, from the characters in which kinds differ. */
  function KindOf(s: string): Option<StorageType> {
    if |s| < 7 then None
    else if s[1] == 'r' then Some(if s[6] == '1' then DKGRound1IdentifierPackage else DKGRound2IdentifierPackage)
    else if |s| < 11 then None
    else if s[1] == 'd' then Some(if s[10] == '1' then DKGRound1SecretPackage else DKGRound2SecretPackage)
    else if s[1] == 'f' then Some(if s[7] == 'k' then Key else PubKey)
    else if s[1] == 's' then
      Some(if s[9] == 'c' then SigningCommitments else if s[9] == 'n' then SigningNonces
           else if s[9] == 's' then SignatureShare else SigningPackage)
    else Some(if s[7] == 'k' then EcdsaKeys else if s[8] == 'f' then EcdsaOfflineOutput else EcdsaOnlineOutput)
  }

  lemma SuffixShowsKind(t: StorageType, digest: Option<string>)
    requires NeedsDigest(t) ==> digest.Some?
    ensures KindOf(Suffix(t, digest)) == Some(t)
    ensures Suffix(t, digest) != [] && Suffix(t, digest)[0] == '/'
  {
  }

  lemma ConcatCancels<T>(a: seq<T>, x: seq<T>, y: seq<T>)
    requires a + x == a + y
    ensures x == y
  {
    assert (a + x)[|a|..] == x && (a + y)[|a|..] == y;
  }

  lemma SuffixShowsDigest(t: StorageType, d: Option<string>, d': Option<string>)
    requires NeedsDigest(t) ==> d.Some? && d'.Some?
    requires Suffix(t, d) == Suffix(t, d')
    ensures Shown(t, d) == Shown(t, d')
  {
    if Shown(t, d).Some? && Shown(t, d').Some? {
      match t
      case DKGRound1IdentifierPackage => ConcatCancels("/round1/", d.value, d'.value);
      case DKGRound2IdentifierPackage => ConcatCancels("/round2/", d.value, d'.value);
      case Key => ConcatCancels("/frost/keys/", d.value, d'.value);
      case PubKey => ConcatCancels("/frost/pubkeys/", d.value, d'.value);
      case EcdsaKeys => ConcatCancels("/ecdsa/keys/", d.value, d'.value);
      case EcdsaOfflineOutput => ConcatCancels("/ecdsa/offline/", d.value, d'.value);
      case EcdsaOnlineOutput => ConcatCancels("/ecdsa/online/", d.value, d'.value);
    }
  }

  /** Texts without a slash, each followed by one that starts with a slash. */
  lemma SplitAtSlash(a: string, x: string, b: string, y: string)
    requires a + x == b + y
    requires '/' !in a && '/' !in b && x != [] && y != [] && x[0] == '/' && y[0] == '/'
    ensures a == b && x == y
  {
    var t := a + x;
    assert t[|a|] == '/' && t[|b|] == '/';
    assert forall i :: 0 <= i < |a| ==> t[i] == a[i] && a[i] in a;
    assert forall i :: 0 <= i < |b| ==> t[i] == b[i] && b[i] in b;
    assert a == (a + x)[..|a|] && b == (b + y)[..|b|];
    assert x == (a + x)[|a|..] && y == (b + y)[|b|..];
  }

  /** Different sessions, kinds or participants never share a file. */
  lemma FilenamesAreInjective(s: SessionId, t: StorageType, d: Option<string>,
                              s': SessionId, t': StorageType, d': Option<string>)
    requires (NeedsDigest(t) ==> d.Some?) && (NeedsDigest(t') ==> d'.Some?)
    requires FormatFilename(s, t, d) == FormatFilename(s', t', d')
    ensures s == s' && t == t' && Shown(t, d) == Shown(t', d')
  {
    SuffixShowsKind(t, d);
    SuffixShowsKind(t', d');
    SessionIsShown(s, Suffix(t, d), s', Suffix(t', d'));
    SuffixShowsDigest(t, d, d');
  }

  lemma SessionIsShown(s: SessionId, x: string, s': SessionId, y: string)
    requires "sessions/" + Decimal(s) + x == "sessions/" + Decimal(s') + y
    requires x != [] && y != [] && x[0] == '/' && y[0] == '/'
    ensures s == s' && x == y
  {
    assert "sessions/" + Decimal(s) + x == "sessions/" + (Decimal(s) + x);
    assert "sessions/" + Decimal(s') + y == "sessions/" + (Decimal(s') + y);
    ConcatCancels("sessions/", Decimal(s) + x, Decimal(s') + y);
    DecimalReadsBack(s);
    DecimalReadsBack(s');
    SplitAtSlash(Decimal(s), x, Decimal(s'), y);
  }
}

/** The two stores of the client. Seen from outside, packages belong to a session
    and a table, and key files to a session, a kind and a participant. Inside,
    both are kept under file names, and the classes prove that names never mix
    two of them up. */
module DkgStorage {
  import opened Prelude
  import opened FileNames

  type Bytes = string

  /** The four per-participant tables of the in-memory store. */
  datatype Shelf = Round1 | Round2 | Commitments | Shares

  /** What is stored once per session: a secret package with its signer limits,
      the signing nonces, or a signing package with its commitments. */
  datatype Blob =
    | SecretPackage(minSigners: nat, maxSigners: nat)
    | Nonces
    | Package(commitments: map<Identifier, Bytes>)

  datatype Store = Store(
    data: map<(SessionId, StorageType), Blob>,
    tables: map<(Shelf, SessionId), map<Identifier, Bytes>>)

  datatype KeyFile = KeyPackage(minSigners: nat) | PublicKeys

  type KeySlot = (SessionId, StorageType, Identifier)

  function Get(st: Store, shelf: Shelf, s: SessionId): map<Identifier, Bytes> {
    if (shelf, s) in st.tables then st.tables[(shelf, s)] else map[]
  }

  function Put(st: Store, shelf: Shelf, s: SessionId, id: Identifier, bytes: Bytes): Store {
    st.(tables := st.tables[(shelf, s) := Get(st, shelf, s)[id := bytes]])
  }

  function PutData(st: Store, s: SessionId, t: StorageType, blob: Blob): Store {
    st.(data := st.data[(s, t) := blob])
  }

  /** Reading a whole table aborts when an entry is not among those that parse. */
  function Fetch(st: Store, shelf: Shelf, s: SessionId, parses: set<Bytes>): Option<map<Identifier, Bytes>> {
    var m := Get(st, shelf, s);
    if forall id :: id in m ==> m[id] in parses then Some(m) else None
  }

  // ---------------------------------------------------------------- packages in memory

  function TableKind(shelf: Shelf): StorageType {
    match shelf
    case Round1 => DKGRound1IdentifierPackage
    case Round2 => DKGRound2IdentifierPackage
    case Commitments => FileNames.SigningCommitments
    case Shares => SignatureShare
  }

  function TableName(shelf: Shelf, s: SessionId): string {
    FormatFilename(s, TableKind(shelf), None)
  }

  lemma TableNamesDiffer(shelf: Shelf, s: SessionId, s': SessionId)
    requires TableName(shelf, s) == TableName(shelf, s')
    ensures s == s'
  {
    FilenamesAreInjective(s, TableKind(shelf), None, s', TableKind(shelf), None);
  }

  class MemoryStorage {
    var data: map<(SessionId, StorageType), Blob>
    var tables: map<(Shelf, string), map<Identifier, Bytes>>
    /** What the store holds, by session. */
    ghost var view: Store

    function Table(shelf: Shelf, name: string): map<Identifier, Bytes>
      reads this
    {
      if (shelf, name) in tables then tables[(shelf, name)] else map[]
    }

    ghost predicate Valid()
      reads this
    {
      data == view.data && forall shelf, s :: Table(shelf, TableName(shelf, s)) == Get(view, shelf, s)
    }

    constructor ()
      ensures Valid() && view == Store(map[], map[])
    {
      data, tables, view := map[], map[], Store(map[], map[]);
    }

    method StoreData(s: SessionId, t: StorageType, blob: Blob)
      requires Valid()
      modifies this
      ensures Valid() && view == PutData(old(view), s, t, blob)
    {
      data := data[(s, t) := blob];
      view := PutData(view, s, t, blob);
    }

    method StoreFor(shelf: Shelf, s: SessionId, id: Identifier, bytes: Bytes)
      requires Valid()
      modifies this
      ensures Valid() && view == Put(old(view), shelf, s, id, bytes)
    {
      var name := TableName(shelf, s);
      tables := tables[(shelf, name) := Table(shelf, name)[id := bytes]];
      view := Put(view, shelf, s, id, bytes);
      forall shelf', s' ensures Table(shelf', TableName(shelf', s')) == Get(view, shelf', s') {
        if shelf' == shelf && TableName(shelf, s') == name {
          TableNamesDiffer(shelf, s, s');
        }
      }
    }

    method FetchFor(shelf: Shelf, s: SessionId, parses: set<Bytes>) returns (r: Option<map<Identifier, Bytes>>)
      requires Valid()
      ensures r == Fetch(view, shelf, s, parses)
    {
      var inner := Table(shelf, TableName(shelf, s));
      var result: map<Identifier, Bytes>, todo := map[], inner.Keys;
      while todo != {}
        invariant todo <= inner.Keys
        invariant result == inner - todo
        invariant forall id :: id in result ==> result[id] in parses
        decreases todo
      {
        var id :| id in todo;
        if inner[id] !in parses {
          return None;
        }
        result := result[id := inner[id]];
        todo := todo - {id};
      }
      assert inner - todo == inner;
      r := Some(result);
    }
  }

  // ---------------------------------------------------------------- key files

  /** The hash that names participants; SHA-256 is taken to be injective. */
  ghost predicate Injective(digest: Identifier -> string) {
    forall id, id' :: digest(id) == digest(id') ==> id == id'
  }

  class FileStorage {
    const digest: Identifier -> string
    var files: map<string, KeyFile>
    /** What the files hold, by session, kind and participant. */
    ghost var view: map<KeySlot, KeyFile>

    function Name(slot: KeySlot): string
    {
      FormatFilename(slot.0, slot.1, Some(digest(slot.2)))
    }

    ghost predicate Valid()
      reads this
    {
      && Injective(digest)
      && (forall slot: KeySlot :: slot in view ==> NeedsDigest(slot.1))
      && forall slot: KeySlot :: NeedsDigest(slot.1) ==>
           (Name(slot) in files <==> slot in view) && (slot in view ==> files[Name(slot)] == view[slot])
    }

    constructor (digest: Identifier -> string)
      requires Injective(digest)
      ensures Valid() && view == map[] && this.digest == digest
    {
      this.digest := digest;
      files, view := map[], map[];
    }

    lemma NamesDiffer(slot: KeySlot, slot': KeySlot)
      requires Injective(digest) && NeedsDigest(slot.1) && NeedsDigest(slot'.1)
      requires Name(slot) == Name(slot')
      ensures slot == slot'
    {
      FilenamesAreInjective(slot.0, slot.1, Some(digest(slot.2)), slot'.0, slot'.1, Some(digest(slot'.2)));
    }

    method StoreFile(slot: KeySlot, file: KeyFile)
      requires Valid() && NeedsDigest(slot.1)
      modifies this
      ensures Valid() && view == old(view)[slot := file]
    {
      files := files[Name(slot) := file];
      view := view[slot := file];
      forall slot': KeySlot | NeedsDigest(slot'.1)
        ensures (Name(slot') in files <==> slot' in view) && (slot' in view ==> files[Name(slot')] == view[slot'])
      {
        if Name(slot') == Name(slot) {
          NamesDiffer(slot, slot');
        }
      }
    }

    method ReadFile(slot: KeySlot) returns (r: Option<KeyFile>)
      requires Valid() && NeedsDigest(slot.1)
      ensures r == if slot in view then Some(view[slot]) else None
    {
      r := if Name(slot) in files then Some(files[Name(slot)]) else None;
    }
  }
}
