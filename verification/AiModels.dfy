/** The AI-model rollover of pallets/uomi-engine.

    Nodes report the software version they run; the most used version decides
    which local name each model should have. A switch is announced 100 blocks
    ahead, and requests accepted before that still use the old name. */
module AiModels {
  import opened Prelude

  type Account = nat
  type Version = nat
  type Key = nat
  type Name = string

  const PALLET_VERSION: Version := 6
  /** MAX_BLOCKS_TO_WAIT_NODE_UPDATE */
  const WAIT: nat := 100

  datatype Model = Model(name: Name, previous: Name, availableFrom: nat)

  type Models = map<Key, Model>
  type Table = map<Version, map<Key, Name>>

  /** Unknown models read as the default value. */
  function Get(models: Models, k: Key): Model {
    if k in models then models[k] else Model("", "", 0)
  }

  // ---------------------------------------------------------------- the version vote

  function Voters(versions: map<Account, Version>, v: Version): set<Account> {
    set a | a in versions && versions[a] == v
  }

  function Count(versions: map<Account, Version>, v: Version): nat {
    |Voters(versions, v)|
  }

  /** Exactly the reported versions have a counter, with their number of nodes. */
  ghost predicate Tallies(versions: map<Account, Version>, counters: map<Version, nat>) {
    && (forall v: Version :: v in counters <==> Count(versions, v) > 0)
    && (forall v :: v in counters ==> counters[v] == Count(versions, v))
  }

  /** The winner: nobody has more nodes, and among equals it is the oldest
      version. Without any report the pallet's own version wins. */
  ghost predicate IsMostUsed(versions: map<Account, Version>, v: Version) {
    if versions == map[] then v == PALLET_VERSION
    else
      && Count(versions, v) > 0
      && (forall w: Version :: Count(versions, w) <= Count(versions, v))
      && (forall w: Version :: w < v ==> Count(versions, w) < Count(versions, v))
  }

  lemma MostUsedIsUnique(versions: map<Account, Version>, v: Version, w: Version)
    requires IsMostUsed(versions, v) && IsMostUsed(versions, w)
    ensures v == w
  {
  }

  // ---------------------------------------------------------------- the rollover

  /** The changes that block `block` makes: a model is renamed when the winning
      version knows another name and the model's last switch has taken effect. */
  function Operations(models: Models, names: map<Key, Name>, block: nat): Models {
    map k | k in names && Get(models, k).name != names[k] && block >= Get(models, k).availableFrom ::
      Model(names[k], Get(models, k).name, block + WAIT)
  }

  /** One block in which `v` wins. A version without names produces no inherent. */
  function AfterBlock(table: Table, models: Models, block: nat, v: Version): Models {
    if v in table then models + Operations(models, table[v], block) else models
  }

  /** The models after blocks block + 1, block + 2, ... won by the given versions. */
  function After(table: Table, models: Models, block: nat, winners: seq<Version>): Models
    decreases |winners|
  {
    if winners == [] then models
    else After(table, AfterBlock(table, models, block + 1, winners[0]), block + 1, winners[1..])
  }

  /** The name that serves a request accepted at block `accepted`. */
  function Resolve(models: Models, k: Key, accepted: nat): Name {
    var m := Get(models, k);
    if accepted < m.availableFrom then m.previous else m.name
  }

  class Pallet {
    const localNames: Table
    var aiModels: Models
    var nodesVersions: map<Account, Version>

    constructor (localNames: Table)
      ensures this.localNames == localNames && aiModels == map[] && nodesVersions == map[]
    {
      this.localNames := localNames;
      aiModels, nodesVersions := map[], map[];
    }

    /** Only active validators may report, and only a version that differs from
        the stored one, where an absent report reads as version 0. */
    method StoreNodesVersions(isActiveValidator: bool, who: Account, version: Version) returns (ok: bool)
      modifies this`nodesVersions
      ensures ok <==> isActiveValidator && version != (if who in old(nodesVersions) then old(nodesVersions)[who] else 0)
      ensures nodesVersions == if ok then old(nodesVersions)[who := version] else old(nodesVersions)
    {
      if !isActiveValidator {
        return false;
      }
      var current := if who in nodesVersions then nodesVersions[who] else 0;
      if current == version {
        return false;
      }
      nodesVersions := nodesVersions[who := version];
      ok := true;
    }

    method GetMostUsedVersion() returns (version: Version)
      ensures IsMostUsed(nodesVersions, version)
    {
      version := PALLET_VERSION;
      if nodesVersions == map[] {
        return;
      }
      var counters := CountVersions();
      var max, todo := 0, counters.Keys;
      assert todo != {} by {
        var a :| a in nodesVersions;
        assert a in Voters(nodesVersions, nodesVersions[a]);
        assert Count(nodesVersions, nodesVersions[a]) > 0;
      }
      while todo != {}
        invariant todo <= counters.Keys
        invariant forall v, w :: v in counters && v !in todo && w in todo ==> v < w
        invariant forall v :: v in counters && v !in todo ==> counters[v] <= max
        invariant max == 0 ==> todo == counters.Keys
        invariant max > 0 ==> version in counters && version !in todo && counters[version] == max
        invariant max > 0 ==> forall v :: v in counters && v !in todo && v < version ==> counters[v] < max
        decreases todo
      {
        var v := Smallest(todo);
        if counters[v] > max {
          max, version := counters[v], v;
        }
        todo := todo - {v};
      }
      assert max == Count(nodesVersions, version);
      forall w: Version ensures Count(nodesVersions, w) <= max && (w < version ==> Count(nodesVersions, w) < max) {
        if w in counters {
          assert counters[w] == Count(nodesVersions, w);
        }
      }
    }

    method CountVersions() returns (counters: map<Version, nat>)
      ensures Tallies(nodesVersions, counters)
    {
      counters := map[];
      var done: map<Account, Version> := map[];
      while done != nodesVersions
        invariant done.Keys <= nodesVersions.Keys && forall a :: a in done ==> done[a] == nodesVersions[a]
        invariant Tallies(done, counters)
        decreases nodesVersions.Keys - done.Keys
      {
        assert nodesVersions.Keys - done.Keys != {};
        var a :| a in nodesVersions.Keys - done.Keys;
        var v := nodesVersions[a];
        TallyNext(done, counters, a, v);
        counters := counters[v := (if v in counters then counters[v] else 0) + 1];
        done := done[a := v];
      }
    }

    method Smallest(s: set<Version>) returns (least: Version)
      requires s != {}
      ensures least in s && forall v :: v in s ==> least <= v
    {
      least :| least in s;
      var todo := s - {least};
      while todo != {}
        invariant todo <= s && least in s
        invariant forall v :: v in s ==> v in todo || least <= v
        decreases todo
      {
        var v :| v in todo;
        if v < least {
          least := v;
        }
        todo := todo - {v};
      }
    }

    /** The operations of the next inherent; an error when the winning version
        has no names. */
    method Run(block: nat) returns (winner: Version, operations: Option<Models>)
      ensures IsMostUsed(nodesVersions, winner)
      ensures operations == if winner in localNames then Some(Operations(aiModels, localNames[winner], block)) else None
    {
      winner := GetMostUsedVersion();
      if winner !in localNames {
        return winner, None;
      }
      var names := localNames[winner];
      var ops: Models, todo := map[], names.Keys;
      while todo != {}
        invariant todo <= names.Keys
        invariant ops == Operations(aiModels, map k | k in names && k !in todo :: names[k], block)
        decreases todo
      {
        var k :| k in todo;
        todo := todo - {k};
        var current := Get(aiModels, k);
        if current.name != names[k] && block >= current.availableFrom {
          ops := ops[k := Model(names[k], current.name, block + WAIT)];
        }
      }
      assert names == map k | k in names && k !in todo :: names[k];
      operations := Some(ops);
    }

    method StoreOperations(operations: Models)
      modifies this`aiModels
      ensures aiModels == old(aiModels) + operations
    {
      var todo := operations.Keys;
      while todo != {}
        invariant todo <= operations.Keys
        invariant aiModels == old(aiModels) + (operations - todo)
        decreases todo
      {
        var k :| k in todo;
        aiModels := aiModels[k := operations[k]];
        todo := todo - {k};
      }
      assert operations - todo == operations;
    }

    /** One block: the author's operations, applied by the inherent. */
    method Inherent(block: nat) returns (winner: Version)
      modifies this`aiModels
      ensures IsMostUsed(nodesVersions, winner)
      ensures aiModels == AfterBlock(localNames, old(aiModels), block, winner)
    {
      var operations;
      winner, operations := Run(block);
      if operations.Some? {
        StoreOperations(operations.value);
      }
    }
  }

  lemma TallyNext(done: map<Account, Version>, counters: map<Version, nat>, a: Account, v: Version)
    requires a !in done && Tallies(done, counters)
    ensures Tallies(done[a := v], counters[v := (if v in counters then counters[v] else 0) + 1])
  {
    var more := counters[v := (if v in counters then counters[v] else 0) + 1];
    forall w: Version
      ensures (w in more <==> Count(done[a := v], w) > 0) && (w in more ==> more[w] == Count(done[a := v], w))
    {
      CountNext(done, a, v, w);
    }
  }

  lemma VotersNext(done: map<Account, Version>, a: Account, v: Version, w: Version)
    requires a !in done
    ensures Voters(done[a := v], w) == Voters(done, w) + if w == v then {a} else {}
  {
  }

  lemma CountNext(done: map<Account, Version>, a: Account, v: Version, w: Version)
    requires a !in done
    ensures Count(done[a := v], w) == Count(done, w) + if w == v then 1 else 0
  {
    VotersNext(done, a, v, w);
    assert a !in Voters(done, w);
  }

  // ---------------------------------------------------------------- stability

  /** Nothing happens to a model before its last switch has taken effect. */
  lemma {:induction false} QuietWhilePending(table: Table, models: Models, block: nat, winners: seq<Version>, k: Key)
    requires block + |winners| < Get(models, k).availableFrom
    ensures Get(After(table, models, block, winners), k) == Get(models, k)
    decreases |winners|
  {
    if winners != [] {
      QuietWhilePending(table, AfterBlock(table, models, block + 1, winners[0]), block + 1, winners[1..], k);
    }
  }

  /** Name changes of one model are at least 100 blocks apart. */
  lemma ChangesAreApart(table: Table, models: Models, block: nat, first: Version, winners: seq<Version>, last: Version, k: Key)
    requires first in table && k in Operations(models, table[first], block)
    requires last in table
    requires k in Operations(After(table, AfterBlock(table, models, block, first), block, winners),
                             table[last], block + |winners| + 1)
    ensures |winners| + 1 >= WAIT
  {
    var renamed := AfterBlock(table, models, block, first);
    assert Get(renamed, k).availableFrom == block + WAIT;
    if |winners| + 1 < WAIT {
      QuietWhilePending(table, renamed, block, winners, k);
      assert false;
    }
  }

  /** During the next 100 blocks an effective name is either still current or
      kept as the previous name of a switch that takes effect after them. */
  lemma {:induction false} NameIsKept(table: Table, models: Models, block: nat, winners: seq<Version>, k: Key)
    requires Get(models, k).availableFrom <= block
    requires |winners| <= WAIT
    ensures var m := Get(After(table, models, block, winners), k);
            || m == Get(models, k)
            || (m.previous == Get(models, k).name && block + WAIT < m.availableFrom)
    decreases |winners|
  {
    if winners != [] {
      var next := AfterBlock(table, models, block + 1, winners[0]);
      if Get(next, k) == Get(models, k) {
        NameIsKept(table, next, block + 1, winners[1..], k);
      } else {
        QuietWhilePending(table, next, block + 1, winners[1..], k);
      }
    }
  }

  /** A request accepted at a block where the model's name is in effect resolves
      to that name at every later block through block + 100, whatever the nodes
      report in the meantime. */
  lemma RequestNameIsStable(table: Table, models: Models, block: nat, winners: seq<Version>, k: Key)
    requires Get(models, k).availableFrom <= block
    requires |winners| <= WAIT
    ensures Resolve(After(table, models, block, winners), k, block) == Resolve(models, k, block) == Get(models, k).name
  {
    NameIsKept(table, models, block, winners, k);
  }

  /** A pending model can be renamed again in the very block in which its switch
      takes effect. */
  lemma {:induction false} RenamedOnTime(table: Table, models: Models, block: nat, winners: seq<Version>, v: Version, k: Key)
    requires block + |winners| + 1 == Get(models, k).availableFrom
    requires v in table && k in table[v] && table[v][k] != Get(models, k).name
    ensures var m := Get(models, k);
            Get(After(table, models, block, winners + [v]), k) == Model(table[v][k], m.name, m.availableFrom + WAIT)
    decreases |winners|
  {
    if winners == [] {
      assert winners + [v] == [v] && [v][1..] == [];
      assert After(table, models, block, [v]) == AfterBlock(table, models, block + 1, v);
    } else {
      assert (winners + [v])[1..] == winners[1..] + [v];
      RenamedOnTime(table, AfterBlock(table, models, block + 1, winners[0]), block + 1, winners[1..], v, k);
    }
  }

  /** A request accepted at `block` is served by one name for 100 blocks, whatever
      wins the votes. */
  ghost predicate Stable(table: Table, models: Models, block: nat, k: Key) {
    forall winners: seq<Version> :: |winners| <= WAIT ==>
      Resolve(After(table, models, block, winners), k, block) == Resolve(models, k, block)
  }

  /** No version has another name for the model. */
  ghost predicate OnlyName(table: Table, models: Models, k: Key) {
    forall v :: v in table && k in table[v] ==> table[v][k] == Get(models, k).name
  }

  lemma {:induction false} OnlyNameStays(table: Table, models: Models, block: nat, winners: seq<Version>, k: Key)
    requires OnlyName(table, models, k)
    ensures Get(After(table, models, block, winners), k) == Get(models, k)
    decreases |winners|
  {
    if winners != [] {
      OnlyNameStays(table, AfterBlock(table, models, block + 1, winners[0]), block + 1, winners[1..], k);
    }
  }

  /** A switch that was announced: at most 100 blocks ahead, to another name, and
      to one that some version has. */
  ghost predicate Announced(table: Table, models: Models, block: nat, k: Key) {
    var m := Get(models, k);
    m.availableFrom == 0 ||
    (m.availableFrom <= block + WAIT && m.name != m.previous && exists v :: v in table && k in table[v] && table[v][k] == m.name)
  }

  lemma {:induction false} AlwaysAnnounced(table: Table, models: Models, block: nat, winners: seq<Version>, k: Key)
    requires Announced(table, models, block, k)
    ensures Announced(table, After(table, models, block, winners), block + |winners|, k)
    decreases |winners|
  {
    if winners != [] {
      AlwaysAnnounced(table, AfterBlock(table, models, block + 1, winners[0]), block + 1, winners[1..], k);
    }
  }

  /** While a switch is pending, a vote for another name in the block in which it
      takes effect makes an earlier request change its name. */
  lemma UnstableWhilePending(table: Table, models: Models, block: nat, v: Version, k: Key)
    requires Announced(table, models, block, k) && block < Get(models, k).availableFrom
    requires v in table && k in table[v] && table[v][k] != Get(models, k).name
    ensures !Stable(table, models, block, k)
  {
    var quiet := seq(Get(models, k).availableFrom - block - 1, _ => v);
    RenamedOnTime(table, models, block, quiet, v, k);
    assert |quiet + [v]| <= WAIT;
  }

  /** Exactly when the promise holds, after any history of votes: a request is
      served by one name for 100 blocks if and only if its model's name is in
      effect on acceptance or no version has another name for it. */
  lemma StableIff(table: Table, history: seq<Version>, k: Key)
    ensures var models, block := After(table, map[], 0, history), |history|;
            Stable(table, models, block, k) <==> Get(models, k).availableFrom <= block || OnlyName(table, models, k)
  {
    var models, block := After(table, map[], 0, history), |history|;
    AlwaysAnnounced(table, map[], 0, history, k);
    if Get(models, k).availableFrom <= block || OnlyName(table, models, k) {
      forall winners: seq<Version> | |winners| <= WAIT
        ensures Resolve(After(table, models, block, winners), k, block) == Resolve(models, k, block)
      {
        if Get(models, k).availableFrom <= block {
          RequestNameIsStable(table, models, block, winners, k);
        } else {
          OnlyNameStays(table, models, block, winners, k);
        }
      }
    } else {
      var v :| v in table && k in table[v] && table[v][k] != Get(models, k).name;
      UnstableWhilePending(table, models, block, v, k);
    }
  }

  /** Two versions disagree about the model's name. */
  ghost predicate Renamable(table: Table, k: Key) {
    exists v, w :: v in table && k in table[v] && w in table && k in table[w] && table[v][k] != table[w][k]
  }

  /** The same condition by the name table alone: only a pending switch of a model
      about which two versions disagree makes a request unstable. */
  lemma StableIffNotRenamable(table: Table, history: seq<Version>, k: Key)
    ensures var models, block := After(table, map[], 0, history), |history|;
            Stable(table, models, block, k) <==> Get(models, k).availableFrom <= block || !Renamable(table, k)
  {
    var models := After(table, map[], 0, history);
    StableIff(table, history, k);
    AlwaysAnnounced(table, map[], 0, history, k);
    if Renamable(table, k) {
      var v, w :| v in table && k in table[v] && w in table && k in table[w] && table[v][k] != table[w][k];
      assert table[v][k] != Get(models, k).name || table[w][k] != Get(models, k).name;
    }
  }

  /** The window cannot be longer: a switch in the next block and another one 100
      blocks later serve the request with a different name at block + 101. */
  lemma WindowIsTight(table: Table, models: Models, block: nat, v: Version, quiet: seq<Version>, w: Version, k: Key)
    requires Get(models, k).availableFrom <= block
    requires v in table && k in table[v] && table[v][k] != Get(models, k).name
    requires w in table && k in table[w] && table[w][k] != table[v][k]
    requires |quiet| == WAIT - 1
    ensures |[v] + (quiet + [w])| == WAIT + 1
    ensures Resolve(After(table, models, block, [v] + (quiet + [w])), k, block) == table[v][k] != Get(models, k).name
  {
    var renamed := AfterBlock(table, models, block + 1, v);
    assert Get(renamed, k) == Model(table[v][k], Get(models, k).name, block + 1 + WAIT);
    RenamedOnTime(table, renamed, block + 1, quiet, w, k);
    assert ([v] + (quiet + [w]))[1..] == quiet + [w];
  }
}

/** The name table that ships with the pallet. */
module LocalNames {
  import opened AiModels

  const QWEN := "Qwen/Qwen2.5-32B-Instruct-GPTQ-Int4"
  const TEMP := "Temp2.5/Temp"
  const MISTRAL := "casperhansen/mistral-small-24b-instruct-2501-awq"
  const QWQ := "Qwen/QwQ-32B-AWQ"
  const DOBBY := "SentientAGI/Dobby-Mini-Unhinged-Llama-3.1-8B"
  const SANA := "Efficient-Large-Model/Sana_1600M_1024px_BF16_diffusers"
  const DEEPSEEK := "deepseek-ai/DeepSeek-R1-0528-Qwen3-8B"

  const LOCAL_NAMES: Table := map[
    2 := map[1 := QWEN],
    3 := map[1 := TEMP],
    4 := map[1 := QWEN],
    5 := map[1 := MISTRAL, 2 := QWQ, 3 := DOBBY, 100 := SANA],
    6 := map[1 := DEEPSEEK, 2 := DEEPSEEK, 3 := DOBBY, 100 := SANA]
  ]

  /** Of the released models only 1 and 2 ever changed their names, so for all the
      others `StableIffNotRenamable` promises stability without a condition. */
  lemma ReleasedRenames(k: Key)
    ensures Renamable(LOCAL_NAMES, k) <==> k == 1 || k == 2
  {
    if k == 1 || k == 2 {
      assert |MISTRAL| == 48 && |QWQ| == 16 && |DEEPSEEK| == 37;
      assert LOCAL_NAMES[5][k] != LOCAL_NAMES[6][k];
    }
  }

  lemma ReleasedModelsStableIff(history: seq<Version>, k: Key)
    ensures var models, block := After(LOCAL_NAMES, map[], 0, history), |history|;
            Stable(LOCAL_NAMES, models, block, k) <==> Get(models, k).availableFrom <= block || (k != 1 && k != 2)
  {
    ReleasedRenames(k);
    StableIffNotRenamable(LOCAL_NAMES, history, k);
  }
}
