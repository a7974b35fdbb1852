/**
 The shared read-through and write cache above the trie database. Reads fill it, each transaction's changes are
 committed to it at once, and the trie database below sees them only when the block is committed.
 */
module CachedDb {
  import opened Basics
  import opened Store
  import opened TrieDb

  function Cores(m: map<Address, AccountInfo>): map<Address, TrieAccount> {
    map a | a in m :: m[a].Core()
  }

  /** What reads through the cache see: cached entries in front, the database behind. */
  function Through(accounts: map<Address, AccountInfo>, storage: map<(Address, Slot), Word>, code: map<Hash, Code>,
                   below: Tables): Tables {
    Tables(below.accounts + Cores(accounts), below.storage + storage, below.code + code)
  }

  ghost predicate HashedInfos(pre: Hash -> Code, m: map<Address, AccountInfo>) {
    forall a :: a in m && m[a].code.Some? && m[a].code.value != [] ==> m[a].code.value == pre(m[a].codeHash)
  }

  /** The cache entries a change set writes. */
  function Infos(ch: Changes): map<Address, AccountInfo> {
    map a | a in ch :: ch[a].info
  }

  function SlotValues(ch: Changes): map<(Address, Slot), Word> {
    map k | k in SlotKeys(ch) :: if Writes(ch, k) then ch[k.0].storage[k.1] else 0
  }

  function Codes(pre: Hash -> Code, ch: Changes): map<Hash, Code> {
    map h | h in CodeHashes(ch) :: pre(h)
  }

  function CodeHashes(ch: Changes): set<Hash> {
    set a | a in ch && DepositsCode(ch[a]) :: ch[a].info.codeHash
  }

  /** Every entry the change set touches is in the cache. */
  ghost predicate Covers(accounts: map<Address, AccountInfo>, storage: map<(Address, Slot), Word>,
                         code: map<Hash, Code>, ch: Changes) {
    ch.Keys <= accounts.Keys && SlotKeys(ch) <= storage.Keys && CodeHashes(ch) <= code.Keys
  }

  // ------------------------------------------------------------ the cache laws, on values

  lemma HashesAgree(pre: Hash -> Code, ch: Changes)
    requires HashedChanges(pre, ch) && pre(KECCAK_EMPTY) == []
    ensures DepositedHashes(Undestroyed(ch)) == CodeHashes(ch)
    ensures DepositedHashes(ch) <= CodeHashes(ch)
  {
    var u := Undestroyed(ch);
    forall h | h in CodeHashes(ch) ensures h in DepositedHashes(u) {
      var a :| a in ch && DepositsCode(ch[a]) && ch[a].info.codeHash == h;
      assert a in u && DepositsCode(u[a]) && !u[a].destroyed && u[a].info.codeHash == h;
    }
  }

  lemma CommitShowsAccount(pre: Hash -> Code, accounts: map<Address, AccountInfo>, below: Tables, u: Tables, v: Tables,
                           ch: Changes, a: Address)
    requires u.accounts == below.accounts + Cores(accounts)
    requires v.accounts == below.accounts + Cores(accounts + Infos(ch))
    ensures AccountAt(v, a) == AccountAt(Overlay(pre, u, ch), a)
  {
    AccountAfter(pre, u, Undestroyed(ch), a);
  }

  lemma CommitShowsSlot(pre: Hash -> Code, storage: map<(Address, Slot), Word>, below: Tables, u: Tables, v: Tables,
                        ch: Changes, a: Address, s: Slot)
    requires u.storage == below.storage + storage
    requires v.storage == below.storage + (storage + SlotValues(ch))
    ensures SlotAt(v, a, s) == SlotAt(Overlay(pre, u, ch), a, s)
  {
    var k := (a, s);
    SlotAfter(pre, u, Undestroyed(ch), a, s);
    SlotKeyIff(ch, k);
    if Writes(ch, k) {
      assert v.storage[k] == SlotValues(ch)[k] == ch[a].storage[s];
    } else {
      assert k in v.storage <==> k in u.storage;
    }
  }

  lemma SlotKeyIff(ch: Changes, k: (Address, Slot))
    ensures k in SlotKeys(ch) <==> Writes(ch, k)
    ensures k in SlotValues(ch) <==> Writes(ch, k)
    ensures Writes(Undestroyed(ch), k) <==> Writes(ch, k)
    ensures Writes(ch, k) ==> Undestroyed(ch)[k.0].storage[k.1] == ch[k.0].storage[k.1]
  {
  }

  lemma CommitShowsCode(pre: Hash -> Code, code: map<Hash, Code>, below: Tables, u: Tables, v: Tables,
                        ch: Changes, h: Hash)
    requires HashedChanges(pre, ch) && pre(KECCAK_EMPTY) == []
    requires u.code == below.code + code
    requires v.code == below.code + (code + Codes(pre, ch))
    ensures CodeAt(v, h) == CodeAt(Overlay(pre, u, ch), h)
  {
    HashesAgree(pre, ch);
    CodeAfter(pre, u, Undestroyed(ch), h);
  }

  /** Committing a transaction to the cache shows exactly the old view overlaid with the transaction's changes. */
  lemma CommitShowsOverlay(pre: Hash -> Code, accounts: map<Address, AccountInfo>, storage: map<(Address, Slot), Word>,
                           code: map<Hash, Code>, below: Tables, ch: Changes)
    requires HashedChanges(pre, ch) && pre(KECCAK_EMPTY) == []
    ensures SameReads(Through(accounts + Infos(ch), storage + SlotValues(ch), code + Codes(pre, ch), below),
                      Overlay(pre, Through(accounts, storage, code, below), ch))
  {
    var u, v := Through(accounts, storage, code, below),
      Through(accounts + Infos(ch), storage + SlotValues(ch), code + Codes(pre, ch), below);
    forall a: Address ensures AccountAt(v, a) == AccountAt(Overlay(pre, u, ch), a) {
      CommitShowsAccount(pre, accounts, below, u, v, ch, a);
    }
    forall a: Address, s: Slot ensures SlotAt(v, a, s) == SlotAt(Overlay(pre, u, ch), a, s) {
      CommitShowsSlot(pre, storage, below, u, v, ch, a, s);
    }
    forall h: Hash ensures CodeAt(v, h) == CodeAt(Overlay(pre, u, ch), h) {
      CommitShowsCode(pre, code, below, u, v, ch, h);
    }
  }

  /** What is not in the cache is not touched by committing changes that are covered and destroy nothing. */
  lemma {:induction false} UncachedUntouched(pre: Hash -> Code, accounts: map<Address, AccountInfo>,
      storage: map<(Address, Slot), Word>, code: map<Hash, Code>, below: Tables, chs: seq<Changes>)
    requires forall i :: 0 <= i < |chs| ==>
      Covers(accounts, storage, code, chs[i]) && HashedChanges(pre, chs[i]) && NoneDestroyed(chs[i])
    requires pre(KECCAK_EMPTY) == []
    ensures SameReads(Through(accounts, storage, code, ApplyAll(pre, below, chs)),
                      Through(accounts, storage, code, below))
  {
    if chs != [] {
      var init, ch := chs[..|chs| - 1], chs[|chs| - 1];
      var mid := ApplyAll(pre, below, init);
      UncachedUntouched(pre, accounts, storage, code, below, init);
      OneUncachedUntouched(pre, accounts, storage, code, mid, ch);
    }
  }

  lemma OneUncachedUntouched(pre: Hash -> Code, accounts: map<Address, AccountInfo>,
      storage: map<(Address, Slot), Word>, code: map<Hash, Code>, below: Tables, ch: Changes)
    requires Covers(accounts, storage, code, ch) && HashedChanges(pre, ch) && NoneDestroyed(ch)
    requires pre(KECCAK_EMPTY) == []
    ensures SameReads(Through(accounts, storage, code, Apply(pre, below, ch)), Through(accounts, storage, code, below))
  {
    var after := Apply(pre, below, ch);
    forall a: Address | a !in accounts ensures AccountAt(after, a) == AccountAt(below, a) {
      AccountAfter(pre, below, ch, a);
    }
    forall a: Address, s: Slot | (a, s) !in storage ensures SlotAt(after, a, s) == SlotAt(below, a, s) {
      SlotAfter(pre, below, ch, a, s);
      assert (a, s) in SlotKeys(ch) <==> Writes(ch, (a, s));
    }
    HashesAgree(pre, ch);
    forall h: Hash | h !in code ensures CodeAt(after, h) == CodeAt(below, h) {
      CodeAfter(pre, below, ch, h);
    }
    SameBehind(accounts, storage, code, after, below);
  }

  lemma SameBehind(accounts: map<Address, AccountInfo>, storage: map<(Address, Slot), Word>, code: map<Hash, Code>,
                   t: Tables, u: Tables)
    requires forall a: Address :: a !in accounts ==> AccountAt(t, a) == AccountAt(u, a)
    requires forall a: Address, s: Slot :: (a, s) !in storage ==> SlotAt(t, a, s) == SlotAt(u, a, s)
    requires forall h: Hash :: h !in code ==> CodeAt(t, h) == CodeAt(u, h)
    ensures SameReads(Through(accounts, storage, code, t), Through(accounts, storage, code, u))
  {
    var v, w := Through(accounts, storage, code, t), Through(accounts, storage, code, u);
    forall a: Address ensures AccountAt(v, a) == AccountAt(w, a) {
      assert a !in accounts ==> AccountAt(t, a) == AccountAt(u, a);
    }
    forall a: Address, s: Slot ensures SlotAt(v, a, s) == SlotAt(w, a, s) {
      SameSlotBehind(storage, t, u, v, w, a, s);
    }
    forall h: Hash ensures CodeAt(v, h) == CodeAt(w, h) {
      assert h !in code ==> CodeAt(t, h) == CodeAt(u, h);
    }
  }

  lemma SameSlotBehind(storage: map<(Address, Slot), Word>, t: Tables, u: Tables, v: Tables, w: Tables,
                       a: Address, s: Slot)
    requires v.storage == t.storage + storage && w.storage == u.storage + storage
    requires (a, s) !in storage ==> SlotAt(t, a, s) == SlotAt(u, a, s)
    ensures SlotAt(v, a, s) == SlotAt(w, a, s)
  {
  }

  lemma CommitStaysHashed(pre: Hash -> Code, accounts: map<Address, AccountInfo>, storage: map<(Address, Slot), Word>,
                          code: map<Hash, Code>, below: Tables, ch: Changes)
    requires HashedTables(pre, Through(accounts, storage, code, below)) && HashedInfos(pre, accounts)
    requires HashedChanges(pre, ch)
    ensures HashedTables(pre, Through(accounts + Infos(ch), storage + SlotValues(ch), code + Codes(pre, ch), below))
    ensures HashedInfos(pre, accounts + Infos(ch))
  {
    CodesStayHashed(pre, code, below.code, ch);
  }

  lemma CodesStayHashed(pre: Hash -> Code, code: map<Hash, Code>, below: map<Hash, Code>, ch: Changes)
    requires forall h :: h in below + code ==> (below + code)[h] == pre(h)
    ensures forall h :: h in below + (code + Codes(pre, ch)) ==> (below + (code + Codes(pre, ch)))[h] == pre(h)
  {
    var w := below + (code + Codes(pre, ch));
    forall h | h in w ensures w[h] == pre(h) {
      assert h !in CodeHashes(ch) ==> h in below + code && (below + code)[h] == w[h];
    }
  }

  lemma PutRight<K, V>(m: map<K, V>, n: map<K, V>, k: K, v: V)
    ensures (m + n)[k := v] == m + n[k := v]
  {
  }

  lemma CodesStep(pre: Hash -> Code, ch: Changes, done: set<Address>, a: Address)
    requires HashedChanges(pre, ch) && a in ch && a !in done
    ensures Codes(pre, Part(ch, done + {a})) == if DepositsCode(ch[a])
      then Codes(pre, Part(ch, done))[ch[a].info.codeHash := ch[a].info.code.value] else Codes(pre, Part(ch, done))
  {
    var p, q := Part(ch, done), Part(ch, done + {a});
    forall h | h in CodeHashes(q) ensures h in CodeHashes(p) || (DepositsCode(ch[a]) && h == ch[a].info.codeHash) {
      var b :| b in q && DepositsCode(q[b]) && q[b].info.codeHash == h;
      assert b != a ==> b in p && p[b] == q[b];
    }
    forall h | h in CodeHashes(p) ensures h in CodeHashes(q) {
      var b :| b in p && DepositsCode(p[b]) && p[b].info.codeHash == h;
      assert b in q && q[b] == p[b];
    }
    assert a in q && q[a] == ch[a];
  }

  lemma ApplyKeepsHashed(pre: Hash -> Code, t: Tables, chs: seq<Changes>)
    requires HashedTables(pre, t)
    ensures HashedTables(pre, ApplyAll(pre, t, chs))
  {
    if chs != [] {
      ApplyKeepsHashed(pre, t, chs[..|chs| - 1]);
    }
  }

  lemma CodeSoFarIsHashed(pre: Hash -> Code, was: Tables, chs: seq<Changes>, n: nat, done: set<Address>)
    requires HashedTables(pre, was) && n <= |chs|
    ensures HashedTables(pre, was.(code := CodeSoFar(pre, was, chs, n, done)))
  {
    ApplyKeepsHashed(pre, was, chs[..n]);
  }

  lemma HalfCommitIsHashed(pre: Hash -> Code, was: Tables, now: Tables, chs: seq<Changes>)
    requires HashedTables(pre, was) && HalfCommitted(pre, was, now, chs)
    ensures HashedTables(pre, now)
  {
    if now == ApplyAll(pre, was, chs) {
      ApplyKeepsHashed(pre, was, chs);
    } else {
      var n: nat, done: set<Address> :| n <= |chs| && now == was.(code := CodeSoFar(pre, was, chs, n, done));
      CodeSoFarIsHashed(pre, was, chs, n, done);
    }
  }

  /** Code is deposited only under hashes that the cache has, too. */
  lemma {:induction false} DepositsAreCached(pre: Hash -> Code, code: map<Hash, Code>, chs: seq<Changes>, h: Hash)
    requires pre(KECCAK_EMPTY) == [] && Deposits(chs, h)
    requires forall i :: 0 <= i < |chs| ==> HashedChanges(pre, chs[i]) && CodeHashes(chs[i]) <= code.Keys
    ensures h in code
  {
    if h in DepositedHashes(chs[|chs| - 1]) {
      HashesAgree(pre, chs[|chs| - 1]);
    } else {
      DepositsAreCached(pre, code, chs[..|chs| - 1], h);
    }
  }

  lemma UncachedCodeUntouched(pre: Hash -> Code, code: map<Hash, Code>, was: Tables, chs: seq<Changes>,
                              n: nat, done: set<Address>, h: Hash)
    requires pre(KECCAK_EMPTY) == [] && n <= |chs| && h !in code
    requires forall i :: 0 <= i < |chs| ==> HashedChanges(pre, chs[i]) && CodeHashes(chs[i]) <= code.Keys
    ensures CodeAt(was.(code := CodeSoFar(pre, was, chs, n, done)), h) == CodeAt(was, h)
  {
    var part: Changes := if n < |chs| then Part(chs[n], done) else map[];
    CodeAfterBlock(pre, was, chs[..n], h);
    if Deposits(chs[..n], h) {
      DepositsAreCached(pre, code, chs[..n], h);
    }
    CodeAfter(pre, ApplyAll(pre, was, chs[..n]), part, h);
    if n < |chs| {
      PartDeposits(chs[n], done);
    }
  }

  lemma PartDeposits(ch: Changes, done: set<Address>)
    ensures DepositedHashes(Part(ch, done)) <= CodeHashes(ch)
  {
    forall h | h in DepositedHashes(Part(ch, done)) ensures h in CodeHashes(ch) {
      var a :| a in Part(ch, done) && DepositsCode(ch[a]) && ch[a].info.codeHash == h;
    }
  }

  /** A commit that left accounts and slots alone changes no answer of a cache that has the block's changes. */
  lemma HalfCommittedCode(pre: Hash -> Code, accounts: map<Address, AccountInfo>, storage: map<(Address, Slot), Word>,
                          code: map<Hash, Code>, was: Tables, now: Tables, chs: seq<Changes>)
    requires pre(KECCAK_EMPTY) == [] && HalfCommitted(pre, was, now, chs) && SameState(was, now)
    requires forall i :: 0 <= i < |chs| ==> HashedChanges(pre, chs[i]) && CodeHashes(chs[i]) <= code.Keys
    ensures SameReads(Through(accounts, storage, code, now), Through(accounts, storage, code, was))
  {
    HalfCommittedSoFar(pre, was, now, chs);
    var n: nat, done: set<Address> :| n <= |chs| && now.code == CodeSoFar(pre, was, chs, n, done);
    forall h | h !in code ensures CodeAt(now, h) == CodeAt(was, h) {
      UncachedCodeUntouched(pre, code, was, chs, n, done, h);
    }
    SameUncachedCode(accounts, storage, code, was, now);
  }

  lemma SameUncachedCode(accounts: map<Address, AccountInfo>, storage: map<(Address, Slot), Word>,
                         code: map<Hash, Code>, was: Tables, now: Tables)
    requires SameState(was, now) && forall h :: h !in code ==> CodeAt(now, h) == CodeAt(was, h)
    ensures SameReads(Through(accounts, storage, code, now), Through(accounts, storage, code, was))
  {
    var v, w := Through(accounts, storage, code, was), Through(accounts, storage, code, now);
    forall h ensures CodeAt(w, h) == CodeAt(v, h) {
      assert h !in code ==> CodeAt(w, h) == CodeAt(now, h) && CodeAt(v, h) == CodeAt(was, h);
    }
  }

  lemma HalfCommittedSoFar(pre: Hash -> Code, was: Tables, now: Tables, chs: seq<Changes>)
    requires HalfCommitted(pre, was, now, chs)
    ensures exists n: nat, done: set<Address> :: n <= |chs| && now.code == CodeSoFar(pre, was, chs, n, done)
  {
    if now == ApplyAll(pre, was, chs) {
      ApplyNothing(pre, now);
      assert chs[..|chs|] == chs;
      assert now.code == CodeSoFar(pre, was, chs, |chs|, {});
    }
  }

  lemma ThroughIsHashed(pre: Hash -> Code, accounts: map<Address, AccountInfo>, storage: map<(Address, Slot), Word>,
                        code: map<Hash, Code>, was: Tables, now: Tables)
    requires HashedTables(pre, Through(accounts, storage, code, was)) && HashedTables(pre, now)
    ensures HashedTables(pre, Through(accounts, storage, code, now))
  {
    var v, w := Through(accounts, storage, code, was), Through(accounts, storage, code, now);
    assert forall h :: h in code ==> h in v.code && v.code[h] == code[h];
  }

  /** What the cache holds about the block agrees with what the block left in the database. */
  ghost predicate CacheSurvives(pre: Hash -> Code, trie: Tables, chs: seq<Changes>,
                                accounts: set<Address>, storage: set<(Address, Slot)>, code: set<Hash>) {
    && (forall a :: a in accounts ==> AccountSurvives(chs, a))
    && (forall k: (Address, Slot) :: k in storage ==> SlotSurvives(trie, chs, k.0, k.1))
    && (forall h :: h in code ==> CodeSurvives(pre, trie, chs, h))
  }

  /**
   Committing any block, self-destructs included: a cache that showed the block's overlay is coherent with the new
   database exactly when every cached account, slot and code survives the block.
   */
  lemma CoherentAfterCommitIff(pre: Hash -> Code, accounts: map<Address, AccountInfo>,
                               storage: map<(Address, Slot), Word>, code: map<Hash, Code>,
                               start: Tables, trie: Tables, chs: seq<Changes>)
    requires SameReads(start, trie)
    requires SameReads(Through(accounts, storage, code, trie), OverlayAll(pre, start, chs))
    ensures var now := ApplyAll(pre, trie, chs);
      SameReads(Through(accounts, storage, code, now), now)
      <==> CacheSurvives(pre, trie, chs, accounts.Keys, storage.Keys, code.Keys)
  {
    var now, over := ApplyAll(pre, trie, chs), OverlayAll(pre, start, chs);
    ReadsAgreeIff(pre, start, trie, chs);
    CachedKeysDecide(accounts, storage, code, trie, over, now);
    forall k: (Address, Slot)
      ensures SlotAt(over, k.0, k.1) == SlotAt(now, k.0, k.1) <==> SlotSurvives(trie, chs, k.0, k.1)
    {
    }
  }

  lemma CachedKeysDecide(accounts: map<Address, AccountInfo>, storage: map<(Address, Slot), Word>,
                         code: map<Hash, Code>, below: Tables, over: Tables, now: Tables)
    requires SameReads(Through(accounts, storage, code, below), over)
    ensures SameReads(Through(accounts, storage, code, now), now) <==>
      && (forall a :: a in accounts ==> AccountAt(over, a) == AccountAt(now, a))
      && (forall k: (Address, Slot) :: k in storage ==> SlotAt(over, k.0, k.1) == SlotAt(now, k.0, k.1))
      && (forall h :: h in code ==> CodeAt(over, h) == CodeAt(now, h))
  {
    var was, after := Through(accounts, storage, code, below), Through(accounts, storage, code, now);
    CachedAccountsDecide(accounts, was, after, below, over, now);
    CachedSlotsDecide(storage, was, after, below, over, now);
    CachedCodeDecides(code, was, after, below, over, now);
  }

  lemma CachedAccountsDecide(accounts: map<Address, AccountInfo>, was: Tables, after: Tables,
                             below: Tables, over: Tables, now: Tables)
    requires was.accounts == below.accounts + Cores(accounts) && after.accounts == now.accounts + Cores(accounts)
    requires forall a :: AccountAt(was, a) == AccountAt(over, a)
    ensures (forall a :: AccountAt(after, a) == AccountAt(now, a))
      <==> forall a :: a in accounts ==> AccountAt(over, a) == AccountAt(now, a)
  {
    forall a ensures AccountAt(after, a) == if a in accounts then AccountAt(over, a) else AccountAt(now, a) {
      assert AccountAt(was, a) == AccountAt(over, a);
    }
  }

  lemma CachedSlotsDecide(storage: map<(Address, Slot), Word>, was: Tables, after: Tables,
                          below: Tables, over: Tables, now: Tables)
    requires was.storage == below.storage + storage && after.storage == now.storage + storage
    requires forall a, s :: SlotAt(was, a, s) == SlotAt(over, a, s)
    ensures (forall a, s :: SlotAt(after, a, s) == SlotAt(now, a, s))
      <==> forall k: (Address, Slot) :: k in storage ==> SlotAt(over, k.0, k.1) == SlotAt(now, k.0, k.1)
  {
    forall a: Address, s: Slot
      ensures SlotAt(after, a, s) == if (a, s) in storage then SlotAt(over, a, s) else SlotAt(now, a, s)
    {
      assert SlotAt(was, a, s) == SlotAt(over, a, s);
    }
    if forall a, s :: SlotAt(after, a, s) == SlotAt(now, a, s) {
      forall k: (Address, Slot) | k in storage ensures SlotAt(over, k.0, k.1) == SlotAt(now, k.0, k.1) {
        assert SlotAt(after, k.0, k.1) == SlotAt(now, k.0, k.1);
      }
    }
  }

  lemma CachedCodeDecides(code: map<Hash, Code>, was: Tables, after: Tables, below: Tables, over: Tables, now: Tables)
    requires was.code == below.code + code && after.code == now.code + code
    requires forall h :: CodeAt(was, h) == CodeAt(over, h)
    ensures (forall h :: CodeAt(after, h) == CodeAt(now, h))
      <==> forall h :: h in code ==> CodeAt(over, h) == CodeAt(now, h)
  {
    forall h ensures CodeAt(after, h) == if h in code then CodeAt(over, h) else CodeAt(now, h) {
      assert CodeAt(was, h) == CodeAt(over, h);
    }
  }

  class CachedDatabase {
    const inner: TrieDatabase
    /** Whether reads and commits below can fail. */
    const faulty: bool

    var accounts: map<Address, AccountInfo>
    var storage: map<(Address, Slot), Word>
    var code: map<Hash, Code>

    ghost function View(): Tables
      reads this, inner
    {
      Through(accounts, storage, code, inner.Contents())
    }

    ghost predicate Valid()
      reads this, inner
    {
      && HashedTables(inner.pre, View())
      && HashedTables(inner.pre, inner.Contents())
      && HashedInfos(inner.pre, accounts)
    }

    /** Reading through the cache or past it makes no difference. */
    ghost predicate Coherent()
      reads this, inner
    {
      SameReads(View(), inner.Contents())
    }

    constructor (inner: TrieDatabase, faulty: bool)
      requires HashedTables(inner.pre, inner.Contents())
      ensures Valid() && Coherent() && this.inner == inner && this.faulty == faulty && fresh(this)
    {
      this.inner, this.faulty := inner, faulty;
      accounts, storage, code := map[], map[], map[];
    }

    method BasicRef(a: Address) returns (r: Result<Option<AccountInfo>, ()>)
      requires Valid()
      modifies this
      ensures Valid() && View() == old(View())
      ensures r.Ok? ==> AccountAt(View(), a) == match r.value { case None => None case Some(info) => Some(info.Core()) }
      ensures r.Ok? && r.value.Some? && r.value.value.code.Some? && r.value.value.code.value != [] ==>
        r.value.value.code.value == inner.pre(r.value.value.codeHash)
      ensures a in old(accounts) ==> r == Ok(Some(old(accounts)[a])) && unchanged(this)
      ensures a !in old(accounts) && r.Ok? ==> r.value == inner.BasicRef(a)
      ensures r.Ok? && r.value.Some? ==> a in accounts
      ensures r.Err? ==> faulty
      ensures accounts.Keys >= old(accounts.Keys) && storage.Keys >= old(storage.Keys) && code.Keys >= old(code.Keys)
    {
      if a in accounts {
        return Ok(Some(accounts[a]));
      }
      var fails: bool := *;
      if faulty && fails {
        return Err(());
      }
      var info := inner.BasicRef(a);
      if info.Some? {
        FillAccount(inner.Contents(), a, info.value);
        accounts := accounts[a := info.value];
        if info.value.code.Some? && info.value.code.value != [] {
          FillCode(inner.Contents(), info.value.codeHash);
          code := code[info.value.codeHash := info.value.code.value];
        }
      }
      return Ok(info);
    }

    /** Filling the cache with what the database holds changes no answer. */
    lemma FillAccount(below: Tables, a: Address, info: AccountInfo)
      requires a !in accounts && AccountAt(below, a) == Some(info.Core())
      ensures below.accounts + Cores(accounts[a := info]) == below.accounts + Cores(accounts)
    {
    }

    lemma FillCode(below: Tables, h: Hash)
      requires HashedTables(inner.pre, below) && h in below.code
      requires HashedTables(inner.pre, Through(accounts, storage, code, below))
      ensures below.code + code[h := below.code[h]] == below.code + code
    {
      var v := Through(accounts, storage, code, below);
      assert h in v.code && v.code[h] == inner.pre(h) == below.code[h];
    }

    method CodeByHashRef(h: Hash) returns (r: Result<Code, ()>)
      requires Valid()
      modifies this
      ensures Valid() && View() == old(View())
      ensures r.Ok? ==> r.value == CodeAt(View(), h)
      ensures h in old(code) ==> r == Ok(old(code)[h]) && unchanged(this)
      ensures r.Ok? && r.value != [] ==> h in code
      ensures r.Err? ==> faulty
      ensures accounts.Keys >= old(accounts.Keys) && storage.Keys >= old(storage.Keys) && code.Keys >= old(code.Keys)
    {
      if h in code {
        return Ok(code[h]);
      }
      var fails: bool := *;
      if faulty && fails {
        return Err(());
      }
      var found := inner.CodeByHashRef(h);
      if found != [] {
        FillCode(inner.Contents(), h);
        code := code[h := found];
      }
      return Ok(found);
    }

    method StorageRef(a: Address, s: Slot) returns (r: Result<Word, ()>)
      requires Valid()
      modifies this
      ensures Valid() && SameReads(View(), old(View()))
      ensures r.Ok? ==> r.value == SlotAt(View(), a, s)
      ensures (a, s) in old(storage) ==> r == Ok(old(storage)[(a, s)]) && unchanged(this)
      ensures r.Ok? ==> (a, s) in storage
      ensures r.Err? ==> faulty
      ensures accounts.Keys >= old(accounts.Keys) && storage.Keys >= old(storage.Keys) && code.Keys >= old(code.Keys)
    {
      if (a, s) in storage {
        return Ok(storage[(a, s)]);
      }
      var fails: bool := *;
      if faulty && fails {
        return Err(());
      }
      var value := inner.StorageRef(a, s);
      storage := storage[(a, s) := value];
      return Ok(value);
    }

    /** Copies a transaction's accounts, then its slots, then its new code into the cache. */
    method Commit(ch: Changes)
      requires Valid() && HashedChanges(inner.pre, ch)
      modifies this
      ensures Valid() && SameReads(View(), Overlay(inner.pre, old(View()), ch))
      ensures Covers(accounts, storage, code, ch)
      ensures accounts.Keys >= old(accounts.Keys) && storage.Keys >= old(storage.Keys) && code.Keys >= old(code.Keys)
    {
      CommitShowsOverlay(inner.pre, accounts, storage, code, inner.Contents(), ch);
      CommitStaysHashed(inner.pre, accounts, storage, code, inner.Contents(), ch);
      CommitAccounts(ch);
      CommitStorage(ch);
      CommitCode(ch);
    }

    method CommitAccounts(ch: Changes)
      modifies this`accounts
      ensures accounts == old(accounts) + Infos(ch)
    {
      var left := ch.Keys;
      while left != {}
        invariant left <= ch.Keys
        invariant accounts.Keys == old(accounts.Keys) + (ch.Keys - left)
        invariant forall a :: a in accounts ==>
          accounts[a] == if a in ch && a !in left then ch[a].info else old(accounts)[a]
      {
        var a :| a in left;
        accounts := accounts[a := ch[a].info];
        left := left - {a};
      }
    }

    method CommitStorage(ch: Changes)
      modifies this`storage
      ensures storage == old(storage) + SlotValues(ch)
    {
      ghost var done: map<(Address, Slot), Word> := map[];
      var left := SlotKeys(ch);
      while left != {}
        invariant left <= SlotKeys(ch) && done.Keys == SlotKeys(ch) - left
        invariant storage == old(storage) + done
        invariant forall k :: k in done ==> done[k] == SlotValues(ch)[k]
      {
        var k :| k in left;
        SlotKeyIff(ch, k);
        PutRight(old(storage), done, k, ch[k.0].storage[k.1]);
        storage := storage[k := ch[k.0].storage[k.1]];
        done := done[k := ch[k.0].storage[k.1]];
        left := left - {k};
      }
      assert done == SlotValues(ch);
    }

    method CommitCode(ch: Changes)
      requires HashedChanges(inner.pre, ch)
      modifies this`code
      ensures code == old(code) + Codes(inner.pre, ch)
    {
      var left := ch.Keys;
      ghost var done: set<Address> := {};
      assert Codes(inner.pre, Part(ch, done)) == map[];
      while left != {}
        invariant left + done == ch.Keys && left !! done
        invariant code == old(code) + Codes(inner.pre, Part(ch, done))
        decreases left
      {
        var a :| a in left;
        CodesStep(inner.pre, ch, done, a);
        if ch[a].info.code.Some? && ch[a].info.code.value != [] {
          PutRight(old(code), Codes(inner.pre, Part(ch, done)), ch[a].info.codeHash, ch[a].info.code.value);
          code := code[ch[a].info.codeHash := ch[a].info.code.value];
        }
        left, done := left - {a}, done + {a};
      }
      assert Part(ch, done) == ch;
    }

    /**
     Passes the block's changes on to the trie database. When they are all in the cache already and destroy nothing,
     what reads through the cache see does not change.
     */
    method CommitBlock(number: nat, chs: seq<Changes>) returns (ok: bool)
      requires Valid() && forall i :: 0 <= i < |chs| ==> HashedChanges(inner.pre, chs[i])
      requires forall i :: 0 <= i < |chs| ==> Covers(accounts, storage, code, chs[i])
      modifies inner
      ensures Valid()
      ensures ok ==> inner.Contents() == ApplyAll(inner.pre, old(inner.Contents()), chs)
      ensures ok ==> inner.headers == old(inner.headers)[number := (inner.accounts, inner.storage)]
      ensures !ok ==> inner.headers == old(inner.headers)
      ensures !ok ==> faulty && HalfCommitted(inner.pre, old(inner.Contents()), inner.Contents(), chs)
      ensures ok && (forall i :: 0 <= i < |chs| ==> NoneDestroyed(chs[i])) ==> SameReads(View(), old(View()))
      ensures !ok && SameState(old(inner.Contents()), inner.Contents()) ==> SameReads(View(), old(View()))
      ensures unchanged(this)
    {
      ghost var pre, was := inner.pre, inner.Contents();
      ok := inner.CommitBlock(number, chs, faulty);
      HalfCommitIsHashed(pre, was, inner.Contents(), chs);
      ThroughIsHashed(pre, accounts, storage, code, was, inner.Contents());
      if ok && (forall i :: 0 <= i < |chs| ==> NoneDestroyed(chs[i])) {
        UncachedUntouched(pre, accounts, storage, code, was, chs);
      }
      if !ok && SameState(was, inner.Contents()) {
        HalfCommittedCode(pre, accounts, storage, code, was, inner.Contents(), chs);
      }
    }
  }
}
