/** The transposition table: hash chains that refine "the newest put of a key wins". */
module Zobrist {

  const HASH_TABLE_SIZE: nat := 100003

  datatype Entry = Entry(key: bv64, score: int, move: int)

  function Hash(key: bv64): (i: nat)
    ensures i < HASH_TABLE_SIZE
  {
    (key as nat) % HASH_TABLE_SIZE
  }

  /** Position of the newest put of `key`, or -1. */
  function Newest(puts: seq<Entry>, key: bv64): (k: int)
    ensures -1 <= k < |puts|
    ensures k >= 0 ==> puts[k].key == key
    ensures forall j :: k < j < |puts| ==> puts[j].key != key
  {
    var n := |puts|;
    if n == 0 then -1
    else if puts[n - 1].key == key then n - 1
    else
      var k := Newest(puts[..n - 1], key);
      assert forall j :: 0 <= j < n - 1 ==> puts[..n - 1][j] == puts[j];
      k
  }

  /** What bucket i holds after these puts: its own entries, newest first. */
  function Chain(puts: seq<Entry>, i: nat): seq<Entry> {
    var n := |puts|;
    if n == 0 then []
    else if Hash(puts[n - 1].key) == i then [puts[n - 1]] + Chain(puts[..n - 1], i)
    else Chain(puts[..n - 1], i)
  }

  lemma ChainPut(puts: seq<Entry>, e: Entry, i: nat)
    ensures Chain(puts + [e], i) == if Hash(e.key) == i then [e] + Chain(puts, i) else Chain(puts, i)
  {
    assert (puts + [e])[..|puts|] == puts;
  }

  datatype Lookup = Miss | Hit(entry: Entry)

  function NewestEntry(puts: seq<Entry>, key: bv64): Lookup {
    var k := Newest(puts, key);
    if k < 0 then Miss else Hit(puts[k])
  }

  /** Walking a chain from its head. */
  function Walk(chain: seq<Entry>, key: bv64): Lookup {
    if chain == [] then Miss
    else if chain[0].key == key then Hit(chain[0])
    else Walk(chain[1..], key)
  }

  /** Looking a key up in its chain finds the newest put of that key. */
  lemma {:induction false} ChainFindsNewest(puts: seq<Entry>, key: bv64)
    ensures Walk(Chain(puts, Hash(key)), key) == NewestEntry(puts, key)
  {
    var n := |puts|;
    if n > 0 && puts[n - 1].key != key {
      ChainFindsNewest(puts[..n - 1], key);
      var rest := Chain(puts[..n - 1], Hash(key));
      assert ([puts[n - 1]] + rest)[1..] == rest;
    }
  }

  class Table {
    /** Null when the allocation of the table failed. */
    const buckets: array?<seq<Entry>>
    /** Everything put since the last clear, oldest first. */
    ghost var puts: seq<Entry>

    ghost predicate Valid()
      reads this, buckets
    {
      if buckets == null then puts == []
      else buckets.Length == HASH_TABLE_SIZE && forall i :: 0 <= i < HASH_TABLE_SIZE ==> buckets[i] == Chain(puts, i)
    }

    ghost function Frame(): set<object> {
      if buckets == null then {this} else {this, buckets}
    }

    constructor (hasTable: bool)
      ensures Valid() && puts == [] && (buckets != null <==> hasTable)
      ensures buckets != null ==> fresh(buckets)
    {
      if hasTable {
        buckets := new seq<Entry>[HASH_TABLE_SIZE](_ => []);
      } else {
        buckets := null;
      }
      puts := [];
    }

    method Get(key: bv64) returns (found: bool, score: int, move: int)
      requires Valid()
      ensures found <==> Newest(puts, key) >= 0
      ensures found ==> buckets != null && puts[Newest(puts, key)] == Entry(key, score, move)
    {
      found, score, move := false, 0, 0;
      if buckets == null {
        return;
      }
      ChainFindsNewest(puts, key);
      var chain := buckets[Hash(key)];
      for i := 0 to |chain|
        invariant Walk(chain[i..], key) == NewestEntry(puts, key)
      {
        if chain[i].key == key {
          return true, chain[i].score, chain[i].move;
        }
        assert chain[i..][1..] == chain[i + 1..];
      }
    }

    method Put(key: bv64, score: int, move: int)
      requires Valid()
      modifies Frame()
      ensures Valid()
      ensures puts == if buckets == null then old(puts) else old(puts) + [Entry(key, score, move)]
    {
      if buckets == null {
        return;
      }
      var h := Hash(key);
      var e := Entry(key, score, move);
      buckets[h] := [e] + buckets[h];
      forall i | 0 <= i < HASH_TABLE_SIZE
        ensures buckets[i] == Chain(puts + [e], i)
      {
        ChainPut(puts, e, i);
      }
      puts := puts + [e];
    }

    method Clear()
      requires Valid()
      modifies Frame()
      ensures Valid() && puts == []
      ensures buckets != null ==> forall i :: 0 <= i < HASH_TABLE_SIZE ==> buckets[i] == []
    {
      if buckets == null {
        return;
      }
      for i := 0 to HASH_TABLE_SIZE
        invariant forall j :: 0 <= j < i ==> buckets[j] == []
      {
        while buckets[i] != []
          invariant forall j :: 0 <= j < i ==> buckets[j] == []
          decreases |buckets[i]|
        {
          buckets[i] := buckets[i][1..];
        }
      }
      puts := [];
    }
  }
}
