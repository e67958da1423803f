/** The in-memory cache driver (pkg/cache/memo.go): a map whose entries carry an expiry second.

    The reference it is held against, `Answer`, reads a key's answer off the history of operations alone:
    the last write that is not deleted and whose deadline has not passed.  Garbage collection and a
    persist/restore cycle do not occur in it at all. */
module MemoStores {
  import opened Options

  datatype Item<+V> = Item(value: V, expires: int)

  type Store<V> = map<string, Item<V>>

  function NewItem<V>(value: V, ttl: int, now: nat): Item<V> {
    Item(value, if ttl > 0 then now + ttl else ttl)
  }

  predicate Expired<V>(item: Item<V>, now: nat) {
    item.expires > 0 && item.expires < now
  }

  function GetValue<V>(item: Option<Item<V>>, now: nat): Option<V> {
    match item
    case None => None
    case Some(i) => if Expired(i, now) then None else Some(i.value)
  }

  function Load<V>(store: Store<V>, key: string): Option<Item<V>> {
    if key in store then Some(store[key]) else None
  }

  function Lookup<V>(store: Store<V>, key: string, now: nat): Option<V> {
    GetValue(Load(store, key), now)
  }

  // What each operation does to the map.

  function Live<V>(store: Store<V>, now: nat): Store<V> {
    map key | key in store && !Expired(store[key], now) :: store[key]
  }

  function PrefixedKeys(keys: set<string>, prefix: string): set<string> {
    set key | key in keys :: prefix + key
  }

  /** The entries a batch write of `values` makes. */
  function Prefixed<V>(values: map<string, V>, prefix: string): Store<V> {
    assert forall key: string :: (prefix + key)[|prefix|..] == key;
    map full | full in PrefixedKeys(values.Keys, prefix) :: Item(values[full[|prefix|..]], 0)
  }

  predicate Deletes(prefix: string, keys: seq<string>, key: string) {
    if keys == [] then prefix <= key else exists i :: 0 <= i < |keys| && key == prefix + keys[i]
  }

  datatype Op<V> =
    | SetOp(key: string, value: V, ttl: int)
    | SetsOp(values: map<string, V>, prefix: string)
    | DeleteOp(prefix: string, keys: seq<string>)
    | DeleteAllOp
    | CollectOp
    | RestartOp(restoredAt: nat)  // persisted at the time of the operation, restored into an empty store

  datatype Timed<V> = Timed(at: nat, op: Op<V>)

  function Apply<V>(store: Store<V>, step: Timed<V>): Store<V> {
    match step.op
    case SetOp(key, value, ttl) => store[key := NewItem(value, ttl, step.at)]
    case SetsOp(values, prefix) => store + Prefixed(values, prefix)
    case DeleteOp(prefix, keys) => map key | key in store && !Deletes(prefix, keys, key) :: store[key]
    case DeleteAllOp => map[]
    case CollectOp => Live(store, step.at)
    case RestartOp(restoredAt) => Live(Live(store, step.at), restoredAt)
  }

  function Replay<V>(log: seq<Timed<V>>): Store<V> {
    if log == [] then map[] else Apply(Replay(log[..|log| - 1]), log[|log| - 1])
  }

  // The reference.

  /** The answer for `key` at time `now`, read off the operations from the last to the first. */
  function Answer<V>(log: seq<Timed<V>>, key: string, now: nat): Option<V> {
    if log == [] then None
    else
      var earlier, step := log[..|log| - 1], log[|log| - 1];
      match step.op
      case SetOp(k, value, ttl) =>
        if k != key then Answer(earlier, key, now)
        else if ttl <= 0 || now <= step.at + ttl then Some(value)
        else None
      case SetsOp(values, prefix) =>
        if prefix <= key && key[|prefix|..] in values then Some(values[key[|prefix|..]])
        else Answer(earlier, key, now)
      case DeleteOp(prefix, keys) =>
        if keys == [] && |prefix| <= |key| && key[..|prefix|] == prefix then None
        else if exists i :: 0 <= i < |keys| && key == prefix + keys[i] then None
        else Answer(earlier, key, now)
      case DeleteAllOp => None
      case CollectOp => Answer(earlier, key, now)
      case RestartOp(_) => Answer(earlier, key, now)
  }

  function EndOf<V>(step: Timed<V>): nat {
    if step.op.RestartOp? then step.op.restoredAt else step.at
  }

  /** Every operation ends no earlier than it starts and starts no earlier than the one before ends. */
  predicate Monotone<V>(log: seq<Timed<V>>, now: nat) {
    log == [] ||
    var last := log[|log| - 1];
    last.at <= EndOf(last) <= now && Monotone(log[..|log| - 1], last.at)
  }

  lemma {:induction false} MonotoneLater<V>(log: seq<Timed<V>>, now: nat, later: nat)
    requires Monotone(log, now) && now <= later
    ensures Monotone(log, later)
  {
  }

  lemma PrefixedLookup<V>(values: map<string, V>, prefix: string, key: string)
    ensures key in Prefixed(values, prefix) <==> prefix <= key && key[|prefix|..] in values
    ensures key in Prefixed(values, prefix) ==> Prefixed(values, prefix)[key] == Item(values[key[|prefix|..]], 0)
  {
    if prefix <= key {
      assert key == prefix + key[|prefix|..];
    }
  }

  /** Under a clock that does not go back, the store answers as the history does: collection and restarts
      are invisible, and an entry is served up to and including its expiry second. */
  lemma {:induction false} StoreAnswers<V>(log: seq<Timed<V>>, key: string, now: nat)
    requires Monotone(log, now)
    ensures Lookup(Replay(log), key, now) == Answer(log, key, now)
  {
    if log != [] {
      var earlier, step := log[..|log| - 1], log[|log| - 1];
      MonotoneLater(earlier, step.at, now);
      StoreAnswers(earlier, key, now);
      match step.op
      case SetsOp(values, prefix) => PrefixedLookup(values, prefix, key);
      case _ =>
    }
  }

  /** One collection changes no later read, whatever the store holds. */
  lemma CollectionInvisible<V>(store: Store<V>, key: string, collectedAt: nat, now: nat)
    requires collectedAt <= now
    ensures Lookup(Live(store, collectedAt), key, now) == Lookup(store, key, now)
  {
  }

  /** It is exactly the clock that makes collection safe: a read from before the expiry second tells a
      collected entry from a kept one. */
  lemma CollectionVisibleExactly<V>(store: Store<V>, key: string, collectedAt: nat, now: nat)
    ensures Lookup(Live(store, collectedAt), key, now) != Lookup(store, key, now)
       <==> key in store && 0 < store[key].expires < collectedAt && now <= store[key].expires
  {
  }

  class MemoStore<V> {
    var store: Store<V>

    /** An empty store, or one restored from the entries found in the persist file. */
    constructor (file: Option<Store<V>>, now: nat)
      ensures store == if file.Some? then Live(file.value, now) else map[]
    {
      store := map[];
      new;
      Restore(file, now);
    }

    method Set(key: string, value: V, ttl: int, now: nat)
      modifies this
      ensures store == Apply(old(store), Timed(now, SetOp(key, value, ttl)))
    {
      store := store[key := NewItem(value, ttl, now)];
    }

    function Get(key: string, now: nat): (r: Option<V>)
      reads this
      ensures r == Lookup(store, key, now)
      ensures r.Some? <==> key in store && (store[key].expires <= 0 || now <= store[key].expires)
      ensures r.Some? ==> r.value == store[key].value
    {
      GetValue(Load(store, key), now)
    }

    /** The found answers by unprefixed key, and the missing keys in the order they were asked for. */
    method Gets(keys: seq<string>, prefix: string, now: nat) returns (res: map<string, V>, notFound: seq<string>)
      ensures forall key :: key in res <==> key in keys && Get(prefix + key, now).Some?
      ensures forall key | key in res :: Get(prefix + key, now) == Some(res[key])
      ensures notFound == Missing(keys, prefix, now)
      ensures exists positions :: NotFoundAt(notFound, keys, prefix, now, positions)
    {
      ghost var positions := MissingAt(keys, prefix, now);
      res, notFound := map[], [];
      for i := 0 to |keys|
        invariant forall key :: key in res <==> key in keys[..i] && Get(prefix + key, now).Some?
        invariant forall key | key in res :: Get(prefix + key, now) == Some(res[key])
        invariant notFound == Missing(keys[..i], prefix, now)
      {
        var answer := Get(prefix + keys[i], now);
        assert keys[..i + 1][..i] == keys[..i];
        if answer.Some? {
          res := res[keys[i] := answer.value];
        } else {
          notFound := notFound + [keys[i]];
        }
      }
      assert keys[..|keys|] == keys;
    }

    function Missing(keys: seq<string>, prefix: string, now: nat): seq<string>
      reads this
    {
      if keys == [] then []
      else
        var key := keys[|keys| - 1];
        Missing(keys[..|keys| - 1], prefix, now) + if Get(prefix + key, now).None? then [key] else []
    }

    /** The keys without an answer, each time they were asked for, in that order. */
    ghost predicate NotFoundAt(notFound: seq<string>, keys: seq<string>, prefix: string, now: nat, positions: seq<nat>)
      reads this
    {
      && |notFound| == |positions|
      && (forall k | 0 <= k < |positions| :: positions[k] < |keys| && notFound[k] == keys[positions[k]])
      && (forall k, l | 0 <= k < l < |positions| :: positions[k] < positions[l])
      && (forall i: nat | i < |keys| :: i in positions <==> Get(prefix + keys[i], now).None?)
    }

    lemma {:induction false} MissingAt(keys: seq<string>, prefix: string, now: nat) returns (positions: seq<nat>)
      ensures NotFoundAt(Missing(keys, prefix, now), keys, prefix, now, positions)
    {
      positions := [];
      if keys != [] {
        var n := |keys| - 1;
        positions := MissingAt(keys[..n], prefix, now);
        if Get(prefix + keys[n], now).None? {
          positions := positions + [n];
        }
      }
    }

    method Sets(values: map<string, V>, prefix: string, now: nat)
      modifies this
      ensures store == Apply(old(store), Timed(now, SetsOp(values, prefix)))
    {
      var pending := values.Keys;
      while pending != {}
        invariant pending <= values.Keys
        invariant forall full :: full in store <==> full in old(store) || Written(full, values, prefix, pending)
        invariant forall full | full in store ::
            store[full] == if Written(full, values, prefix, pending)
                           then Item(values[full[|prefix|..]], 0) else old(store)[full]
      {
        var key :| key in pending;
        store := store[prefix + key := NewItem(values[key], 0, now)];
        forall full
          ensures Written(full, values, prefix, pending - {key})
             <==> Written(full, values, prefix, pending) || full == prefix + key
        {
          assert (prefix + key)[|prefix|..] == key;
          if prefix <= full {
            assert full == prefix + full[|prefix|..];
          }
        }
        assert (prefix + key)[|prefix|..] == key;
        pending := pending - {key};
      }
      AllWritten(old(store), store, values, prefix);
    }

    static predicate Written(full: string, values: map<string, V>, prefix: string, pending: set<string>) {
      prefix <= full && full[|prefix|..] in values && full[|prefix|..] !in pending
    }

    static lemma AllWritten(before: Store<V>, after: Store<V>, values: map<string, V>, prefix: string)
      requires forall full :: full in after <==> full in before || Written(full, values, prefix, {})
      requires forall full | full in after ::
          after[full] == if Written(full, values, prefix, {}) then Item(values[full[|prefix|..]], 0) else before[full]
      ensures after == before + Prefixed(values, prefix)
    {
      forall full
        ensures full in after <==> full in before + Prefixed(values, prefix)
        ensures full in after ==> after[full] == (before + Prefixed(values, prefix))[full]
      {
        PrefixedLookup(values, prefix, full);
      }
    }

    method Delete(prefix: string, keys: seq<string>, now: nat)
      modifies this
      ensures store == Apply(old(store), Timed(now, DeleteOp(prefix, keys)))
    {
      for i := 0 to |keys|
        invariant store == map key | key in old(store) && (i == 0 || !Deletes(prefix, keys[..i], key)) ::
                    old(store)[key]
      {
        ghost var before := store;
        store := store - {prefix + keys[i]};
        forall key
          ensures Deletes(prefix, keys[..i + 1], key) ==
                  (key == prefix + keys[i] || (i > 0 && Deletes(prefix, keys[..i], key)))
        {
          DeletesOneMore(prefix, keys, i, key);
        }
      }
      assert keys[..|keys|] == keys;
      if |keys| == 0 {
        var pending := store.Keys;
        while pending != {}
          invariant pending <= old(store).Keys
          invariant store == map key | key in old(store) && (key in pending || !(prefix <= key)) :: old(store)[key]
        {
          var key :| key in pending;
          if prefix <= key {
            store := store - {key};
          }
          pending := pending - {key};
        }
      }
    }

    lemma DeletesOneMore(prefix: string, keys: seq<string>, i: nat, key: string)
      requires i < |keys|
      ensures Deletes(prefix, keys[..i + 1], key) ==
              (key == prefix + keys[i] || (i > 0 && Deletes(prefix, keys[..i], key)))
    {
      if key == prefix + keys[i] {
        assert keys[..i + 1][i] == keys[i];
      }
      if i > 0 && Deletes(prefix, keys[..i], key) {
        var j :| 0 <= j < i && key == prefix + keys[..i][j];
        assert keys[..i + 1][j] == keys[..i][j];
      }
    }

    method GarbageCollect(now: nat)
      modifies this
      ensures store == Apply(old(store), Timed(now, CollectOp))
      ensures forall key, later: nat | now <= later :: Get(key, later) == Lookup(old(store), key, later)
    {
      var pending := store.Keys;
      while pending != {}
        invariant pending <= old(store).Keys
        invariant store == map key | key in old(store) && (key in pending || !Expired(old(store)[key], now)) ::
                    old(store)[key]
      {
        var key :| key in pending;
        if Expired(store[key], now) {
          store := store - {key};
        }
        pending := pending - {key};
      }
      forall key, later: nat | now <= later
        ensures Lookup(store, key, later) == Lookup(old(store), key, later)
      {
        CollectionInvisible(old(store), key, now, later);
      }
    }

    method Persist(now: nat) returns (persisted: Store<V>)
      ensures persisted == Live(store, now)
    {
      persisted := map[];
      var pending := store.Keys;
      while pending != {}
        invariant pending <= store.Keys
        invariant persisted == map key | key in store && key !in pending && !Expired(store[key], now) :: store[key]
      {
        var key :| key in pending;
        if GetValue(Load(store, key), now).Some? {
          persisted := persisted[key := store[key]];
        }
        pending := pending - {key};
      }
    }

    /** A missing file leaves the store as it is; entries that expired meanwhile are skipped. */
    method Restore(file: Option<Store<V>>, now: nat)
      modifies this
      ensures store == if file.Some? then old(store) + Live(file.value, now) else old(store)
    {
      if file.None? {
        return;
      }
      var items := file.value;
      var pending := items.Keys;
      while pending != {}
        invariant pending <= items.Keys
        invariant store == old(store) + map key | key in items && key !in pending && !Expired(items[key], now) ::
                    items[key]
      {
        var key :| key in pending;
        if GetValue(Some(items[key]), now).Some? {
          store := store[key := items[key]];
        }
        pending := pending - {key};
      }
    }

    method DeleteAll(now: nat)
      modifies this
      ensures store == Apply(old(store), Timed(now, DeleteAllOp))
    {
      var pending := store.Keys;
      while pending != {}
        invariant pending <= old(store).Keys
        invariant store == map key | key in old(store) && key in pending :: old(store)[key]
      {
        var key :| key in pending;
        store := store - {key};
        pending := pending - {key};
      }
    }
  }

  /** Persisting a store and restoring it into a new one changes no read from the restore on. */
  method Restart<V>(original: MemoStore<V>, persistedAt: nat, restoredAt: nat) returns (restarted: MemoStore<V>)
    requires persistedAt <= restoredAt
    ensures restarted.store == Apply(original.store, Timed(persistedAt, RestartOp(restoredAt)))
    ensures forall key, now: nat | restoredAt <= now :: restarted.Get(key, now) == original.Get(key, now)
  {
    var file := original.Persist(persistedAt);
    restarted := new MemoStore(Some(file), restoredAt);
    forall key, now: nat | restoredAt <= now
      ensures Lookup(restarted.store, key, now) == Lookup(original.store, key, now)
    {
      CollectionInvisible(original.store, key, persistedAt, now);
      CollectionInvisible(file, key, restoredAt, now);
    }
  }
}
