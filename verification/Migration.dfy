/** Batched migration of table entries into the destination database. */
module Migration {
  import opened Basics

  datatype Stats = Stats(migrated: nat, errors: nat)

  /** Decoding a raw entry may fail, and so may writing a decoded one. */
  datatype Format<!Raw, !K, V> = Format(decode: Raw -> Option<(K, V)>, writable: K -> bool)

  predicate Usable<Raw, K, V>(f: Format<Raw, K, V>, e: Raw) {
    f.decode(e).Some? && f.writable(f.decode(e).value.0)
  }

  /** The effect of all entries in order, the unusable ones left out. */
  function Fold<Raw, K, V>(f: Format<Raw, K, V>, table: map<K, V>, entries: seq<Raw>): map<K, V> {
    if entries == [] then table
    else
      var before := Fold(f, table, entries[..|entries| - 1]);
      var e := entries[|entries| - 1];
      if Usable(f, e) then var kv := f.decode(e).value; before[kv.0 := kv.1] else before
  }

  function CountUsable<Raw, K, V>(f: Format<Raw, K, V>, entries: seq<Raw>): (n: nat)
    ensures n <= |entries|
  {
    if entries == [] then 0
    else CountUsable(f, entries[..|entries| - 1]) + (if Usable(f, entries[|entries| - 1]) then 1 else 0)
  }

  lemma FoldSnoc<Raw, K, V>(f: Format<Raw, K, V>, table: map<K, V>, entries: seq<Raw>, i: nat)
    requires i < |entries|
    ensures Fold(f, table, entries[..i + 1])
      == if Usable(f, entries[i])
         then var kv := f.decode(entries[i]).value; Fold(f, table, entries[..i])[kv.0 := kv.1]
         else Fold(f, table, entries[..i])
    ensures CountUsable(f, entries[..i + 1]) == CountUsable(f, entries[..i]) + (if Usable(f, entries[i]) then 1 else 0)
  {
    assert entries[..i + 1][..i] == entries[..i];
  }

  /** An entry's key holds the value of the last usable entry for it. */
  lemma {:induction false} LastEntryWins<Raw, K, V>(f: Format<Raw, K, V>, table: map<K, V>, entries: seq<Raw>, i: nat)
    requires i < |entries| && Usable(f, entries[i])
    requires forall j :: i < j < |entries| && Usable(f, entries[j]) ==>
      f.decode(entries[j]).value.0 != f.decode(entries[i]).value.0
    ensures var kv := f.decode(entries[i]).value;
      kv.0 in Fold(f, table, entries) && Fold(f, table, entries)[kv.0] == kv.1
  {
    if i < |entries| - 1 {
      LastEntryWins(f, table, entries[..|entries| - 1], i);
    }
  }

  /** A key that no usable entry is for keeps what it had. */
  lemma {:induction false} OtherKeysStay<Raw, K, V>(f: Format<Raw, K, V>, table: map<K, V>, entries: seq<Raw>, k: K)
    requires forall i :: 0 <= i < |entries| && Usable(f, entries[i]) ==> f.decode(entries[i]).value.0 != k
    ensures k in Fold(f, table, entries) <==> k in table
    ensures k in table ==> Fold(f, table, entries)[k] == table[k]
  {
    if entries != [] {
      OtherKeysStay(f, table, entries[..|entries| - 1], k);
    }
  }

  class Table<K(==), V> {
    var committed: map<K, V>

    constructor ()
      ensures committed == map[]
    {
      committed := map[];
    }
  }

  class Migrator<Raw, K(==), V> {
    const format: Format<Raw, K, V>
    const batchSize: nat
    /** Whether the source cursor, the commits or the opening of transactions can fail. */
    const faulty: bool

    constructor (format: Format<Raw, K, V>, batchSize: nat, faulty: bool)
      ensures this.format == format && this.batchSize == batchSize && this.faulty == faulty
    {
      this.format, this.batchSize, this.faulty := format, batchSize, faulty;
    }

    /** What an interrupted migration leaves: the fold of a prefix that ends at a batch boundary. */
    ghost predicate CommittedPrefix(was: map<K, V>, now: map<K, V>, entries: seq<Raw>) {
      exists n: nat, k: nat :: n <= |entries| && now == Fold(format, was, entries[..n]) && EndsBatch(n, k)
    }

    /** The first `n` entries are exactly `k` batches; with batch size zero every entry is a batch. */
    predicate EndsBatch(n: nat, k: nat) {
      n == if batchSize == 0 then k else k * batchSize
    }

    /** Writes the entries in order, committing after every `batchSize` of them and once more at the end. */
    method Migrate(entries: seq<Raw>, table: Table<K, V>) returns (r: Result<Stats, ()>)
      modifies table
      ensures r.Ok? ==>
        && table.committed == Fold(format, old(table.committed), entries)
        && r.value == Stats(CountUsable(format, entries), |entries| - CountUsable(format, entries))
      ensures r.Err? ==> faulty && CommittedPrefix(old(table.committed), table.committed, entries)
    {
      var stats := Stats(0, 0);
      var batchCount: nat := 0;
      ghost var batches: nat := 0;
      var open := table.committed;
      var breaksAt: nat := *;
      for i := 0 to |entries|
        invariant open == Fold(format, old(table.committed), entries[..i])
        invariant stats == Stats(CountUsable(format, entries[..i]), i - CountUsable(format, entries[..i]))
        invariant batchCount <= i && table.committed == Fold(format, old(table.committed), entries[..i - batchCount])
        invariant EndsBatch(i - batchCount, batches)
        invariant if batchSize > 0 then batchCount < batchSize else batchCount == 0
      {
        if faulty && breaksAt == 2 * i {
          return Err(());
        }
        FoldSnoc(format, old(table.committed), entries, i);
        var decoded := format.decode(entries[i]);
        if decoded.Some? && format.writable(decoded.value.0) {
          open := open[decoded.value.0 := decoded.value.1];
          stats := stats.(migrated := stats.migrated + 1);
        } else {
          stats := stats.(errors := stats.errors + 1);
        }
        batchCount := batchCount + 1;
        if batchCount >= batchSize {
          if faulty && breaksAt == 2 * i + 1 {
            return Err(());
          }
          assert (batches + 1) * batchSize == batches * batchSize + batchSize;
          table.committed := open;
          batchCount, batches := 0, batches + 1;
        }
      }
      assert entries[..|entries|] == entries;
      if faulty && breaksAt == 2 * |entries| {
        return Err(());
      }
      table.committed := open;
      return Ok(stats);
    }
  }

  /** Accounts first, then storage; a failure leaves batch prefixes, and storage untouched if accounts failed. */
  method MigrateAll<RawA, A(==), B, RawS, S(==), T>(
      accountMigrator: Migrator<RawA, A, B>, accountEntries: seq<RawA>, accounts: Table<A, B>,
      storageMigrator: Migrator<RawS, S, T>, storageEntries: seq<RawS>, storage: Table<S, T>)
    returns (r: Result<(Stats, Stats), ()>)
    requires accounts as object != storage as object
    modifies accounts, storage
    ensures r.Ok? ==>
      && accounts.committed == Fold(accountMigrator.format, old(accounts.committed), accountEntries)
      && storage.committed == Fold(storageMigrator.format, old(storage.committed), storageEntries)
    ensures r.Ok? ==>
      var a := CountUsable(accountMigrator.format, accountEntries);
      var s := CountUsable(storageMigrator.format, storageEntries);
      r.value == (Stats(a, |accountEntries| - a), Stats(s, |storageEntries| - s))
    ensures r.Err? ==>
      || (accountMigrator.faulty
          && accountMigrator.CommittedPrefix(old(accounts.committed), accounts.committed, accountEntries)
          && storage.committed == old(storage.committed))
      || (storageMigrator.faulty
          && accounts.committed == Fold(accountMigrator.format, old(accounts.committed), accountEntries)
          && storageMigrator.CommittedPrefix(old(storage.committed), storage.committed, storageEntries))
  {
    var a := accountMigrator.Migrate(accountEntries, accounts);
    if a.Err? {
      return Err(());
    }
    var s := storageMigrator.Migrate(storageEntries, storage);
    if s.Err? {
      return Err(());
    }
    return Ok((a.value, s.value));
  }
}
