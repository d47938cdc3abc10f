/** Contextual storage: where the current generation keeps its stack of active
    contexts between calls.

    The call-chain-local slot (AsyncLocalContextStorage) holds only a small
    cross-reference token; the stack itself lives in a process-wide side table
    keyed by that token (StackTable, a ConditionalWeakTable in the library).
    ContextualStorageHelper ties the two together. The storage implementation in
    use is chosen once per process through AmbientDbContextStorageProvider.

    Process-wide statics become objects that callers pass explicitly; one slot
    object stands for the value one logical call chain sees. */
module Storage {
  import opened Wrappers
  import opened Data

  /** The key the helper stores its token under (AmbientDbContextStorageKey.Key,
      whose value is not part of this model; the async-local storage ignores it). */
  const StorageKey := "AmbientDbContextStorageKey"

  const StackNotFoundMessage := "Could not find ambient database context stack in the storage."
  const StorageNotConfiguredMessage :=
    "Ambient database context storage hasn't been configured. Use AmbientDbContextStorageProvider.SetStorage(IContextualStorage) to configure ambient database context storage."
  const DuplicateKeyMessage := "An entry with the same key already exists."

  /** ContextualStorageHelper.ContextualStorageItem: the token wrapper kept in storage. */
  datatype StorageItem = ContextualStorageItem(value: string)

  /** AsyncLocalContextStorage: one async-local slot. Every key names the same slot. */
  class AsyncLocalContextStorage {
    var value: Option<StorageItem>

    constructor ()
      ensures value == None
    {
      value := None;
    }

    method GetValue(key: string) returns (r: Option<StorageItem>)
      ensures r == value
    {
      r := value;
    }

    method Exists(key: string) returns (r: bool)
      ensures r <==> value.Some?
    {
      r := value.Some?;
    }

    method RemoveValue(key: string)
      modifies this
      ensures value == None
    {
      value := None;
    }

    /** Storing `None` is storing a null reference. */
    method SetValue(key: string, v: Option<StorageItem>)
      modifies this
      ensures value == v
    {
      value := v;
    }
  }

  /** AmbientDbContextStorageProvider: the process-wide storage selector. */
  class AmbientDbContextStorageProvider {
    var storage: AsyncLocalContextStorage?

    constructor ()
      ensures storage == null
    {
      storage := null;
    }

    /** The `Storage` getter. */
    method Storage() returns (r: Result<AsyncLocalContextStorage, Error>)
      ensures storage == null <==> r.Failure?
      ensures r.Failure? ==> r.error == InvalidOperationException(StorageNotConfiguredMessage)
      ensures r.Success? ==> r.value == storage
    {
      if storage == null {
        return Failure(InvalidOperationException(StorageNotConfiguredMessage));
      }
      return Success(storage);
    }

    /** Installs `s` (null included, which unconfigures the provider: no argument check). */
    method SetStorage(s: AsyncLocalContextStorage?)
      modifies this
      ensures storage == s
    {
      storage := s;
    }
  }

  /** The process-wide side table from tokens to stacks (top of stack last). */
  class StackTable<T> {
    var entries: map<string, seq<T>>

    constructor ()
      ensures entries == map[]
    {
      entries := map[];
    }
  }

  /** What GetStack reports for a storage slot and a side table: an error when the
      slot holds no token, a null stack (`None`) when the table has no entry for it. */
  function LookupStack<T>(slot: Option<StorageItem>, entries: map<string, seq<T>>): (r: Result<Option<seq<T>>, Error>)
  {
    match slot
    case None => Failure(AmbientDbContextException(StackNotFoundMessage))
    case Some(item) => Success(if item.value in entries then Some(entries[item.value]) else None)
  }

  /** The side table after SaveStack(s): the current token's entry is dropped and
      re-added with `s`; without a token, the same error as LookupStack. */
  function SaveStackOf<T>(slot: Option<StorageItem>, entries: map<string, seq<T>>, s: seq<T>): (r: Result<map<string, seq<T>>, Error>)
  {
    match slot
    case None => Failure(AmbientDbContextException(StackNotFoundMessage))
    case Some(item) => Success((entries - {item.value})[item.value := s])
  }

  /** Saving then reading back returns the saved stack, and only the current
      token's entry changes. */
  lemma SaveThenLookup<T>(slot: Option<StorageItem>, entries: map<string, seq<T>>, s: seq<T>)
    ensures SaveStackOf(slot, entries, s).Success? <==> slot.Some?
    ensures SaveStackOf(slot, entries, s).Success? ==>
      var e := SaveStackOf(slot, entries, s).value;
      && LookupStack(slot, e) == Success(Some(s))
      && e.Keys == entries.Keys + {slot.value.value}
      && forall k :: k in entries && k != slot.value.value ==> e[k] == entries[k]
  {
  }

  /** Without a token in the slot, reading and saving fail alike and nothing is written. */
  lemma MissingTokenFails<T>(entries: map<string, seq<T>>, s: seq<T>)
    ensures LookupStack(None, entries) == Failure(AmbientDbContextException(StackNotFoundMessage))
    ensures SaveStackOf(None, entries, s) == Failure(AmbientDbContextException(StackNotFoundMessage))
  {
  }

  /** ContextualStorageHelper: the bridge between the token slot and the side table. */
  class ContextualStorageHelper<T> {
    const storage: AsyncLocalContextStorage
    const table: StackTable<T>

    constructor Wrap(storage: AsyncLocalContextStorage, table: StackTable<T>)
      ensures this.storage == storage && this.table == table
    {
      this.storage := storage;
      this.table := table;
    }

    /** The stack as GetStack would report it now. */
    ghost function Stack(): Result<Option<seq<T>>, Error>
      reads storage, table
    {
      LookupStack(storage.value, table.entries)
    }

    /** The helper's constructor: wrap `storage`, then Initialize. `guid` is the
        freshly generated identifier used if no token is stored yet. */
    static method New(storage: AsyncLocalContextStorage, table: StackTable<T>, guid: string)
      returns (r: Result<ContextualStorageHelper<T>, Error>)
      modifies storage, table
      ensures r.Success? ==> fresh(r.value) && r.value.storage == storage && r.value.table == table
      ensures InitializeEffect(storage, table, guid, r.Failure?)
      ensures r.Failure? ==> r.error == ArgumentException(DuplicateKeyMessage)
    {
      var h := new ContextualStorageHelper<T>.Wrap(storage, table);
      var o := h.Initialize(guid);
      if o.Fail? {
        return Failure(o.error);
      }
      return Success(h);
    }

    /** What Initialize does to the slot and the table. With a token already
        stored: nothing, so every helper of one call chain shares one stack. With
        none: `guid` is stored as the token, then an empty stack is registered
        under it; the table's Add throws (and `failed` holds) when the key is
        already present, after the slot was written. */
    static twostate predicate InitializeEffect(storage: AsyncLocalContextStorage, table: StackTable<T>, guid: string, failed: bool)
      reads storage, table
    {
      if old(storage.value).Some? then
        !failed && storage.value == old(storage.value) && table.entries == old(table.entries)
      else
        && storage.value == Some(ContextualStorageItem(guid))
        && failed == (guid in old(table.entries))
        && table.entries == (if failed then old(table.entries) else old(table.entries)[guid := []])
    }

    method Initialize(guid: string) returns (o: Outcome<Error>)
      modifies storage, table
      ensures InitializeEffect(storage, table, guid, o.Fail?)
      ensures o.Fail? ==> o.error == ArgumentException(DuplicateKeyMessage)
    {
      var key := storage.GetValue(StorageKey);
      if key.None? {
        var item := ContextualStorageItem(guid);
        storage.SetValue(StorageKey, Some(item));
        if item.value in table.entries {
          return Fail(ArgumentException(DuplicateKeyMessage));
        }
        table.entries := table.entries[item.value := []];
      }
      return Pass;
    }

    method GetStack() returns (r: Result<Option<seq<T>>, Error>)
      ensures r == Stack()
      ensures storage.value.None? ==> r == Failure(AmbientDbContextException(StackNotFoundMessage))
      ensures r.Success? && r.value.Some? ==> storage.value.value.value in table.entries
    {
      var key := storage.GetValue(StorageKey);
      if key.None? {
        return Failure(AmbientDbContextException(StackNotFoundMessage));
      }
      if key.value.value in table.entries {
        return Success(Some(table.entries[key.value.value]));
      }
      return Success(None);
    }

    /** Replaces the current token's entry (remove, then add); never writes the slot. */
    method SaveStack(s: seq<T>) returns (o: Outcome<Error>)
      modifies table
      ensures o.Fail? <==> storage.value.None?
      ensures o.Fail? ==> o.error == AmbientDbContextException(StackNotFoundMessage) && table.entries == old(table.entries)
      ensures o.Pass? ==> Success(table.entries) == SaveStackOf(storage.value, old(table.entries), s)
      ensures o.Pass? ==> Stack() == Success(Some(s))
    {
      var key := storage.GetValue(StorageKey);
      if key.None? {
        return Fail(AmbientDbContextException(StackNotFoundMessage));
      }
      var k := key.value.value;
      if k in table.entries {
        table.entries := table.entries - {k};
      }
      assert table.entries == old(table.entries) - {k};
      table.entries := table.entries[k := s];
      return Pass;
    }
  }
}
