/**
 Account state and its changes, as values: what a store answers to reads, what a transaction's change set does to
 the trie database, and what it does to the cache above it. Contracts' code is stored under its hash; `pre` gives
 the code a hash stands for.
 */
module Store {
  import opened Basics

  type Address = nat
  type Slot = nat
  type Word = nat
  type Hash = nat
  type Code = seq<nat>

  const KECCAK_EMPTY: Hash := 0xc5d2460186f7233c927e7db2dcc703c0e500b653ca82273b7bfad8045d85a470

  datatype TrieAccount = TrieAccount(nonce: nat, balance: Word, codeHash: Hash)

  datatype AccountInfo = AccountInfo(nonce: nat, balance: Word, codeHash: Hash, code: Option<Code>) {
    function Core(): TrieAccount {
      TrieAccount(nonce, balance, codeHash)
    }
  }

  datatype Account = Account(info: AccountInfo, storage: map<Slot, Word>, destroyed: bool)

  type Changes = map<Address, Account>

  datatype Tables = Tables(
    accounts: map<Address, TrieAccount>, storage: map<(Address, Slot), Word>, code: map<Hash, Code>)

  // ------------------------------------------------------------ reads

  function AccountAt(t: Tables, a: Address): Option<TrieAccount> {
    if a in t.accounts then Some(t.accounts[a]) else None
  }

  function SlotAt(t: Tables, a: Address, s: Slot): Word {
    if (a, s) in t.storage then t.storage[(a, s)] else 0
  }

  function CodeAt(t: Tables, h: Hash): Code {
    if h in t.code then t.code[h] else []
  }

  /** The same accounts and slots; the code may differ. */
  predicate SameState(t: Tables, u: Tables) {
    t.accounts == u.accounts && t.storage == u.storage
  }

  /** No read tells the two stores apart. */
  ghost predicate SameReads(t: Tables, u: Tables) {
    && (forall a :: AccountAt(t, a) == AccountAt(u, a))
    && (forall a, s :: SlotAt(t, a, s) == SlotAt(u, a, s))
    && (forall h :: CodeAt(t, h) == CodeAt(u, h))
  }

  // ------------------------------------------------------------ hashes

  /** Hashing is collision-free: whatever code is around under a hash is the code the hash stands for. */
  ghost predicate HashedTables(pre: Hash -> Code, t: Tables) {
    pre(KECCAK_EMPTY) == [] && forall h :: h in t.code ==> t.code[h] == pre(h)
  }

  predicate DepositsCode(acc: Account) {
    acc.info.code.Some? && acc.info.code.value != []
  }

  ghost predicate HashedChanges(pre: Hash -> Code, ch: Changes) {
    forall a :: a in ch && DepositsCode(ch[a]) ==> ch[a].info.code.value == pre(ch[a].info.codeHash)
  }

  // ------------------------------------------------------------ change sets

  function DepositedHashes(ch: Changes): set<Hash> {
    set a | a in ch && DepositsCode(ch[a]) && !ch[a].destroyed && ch[a].info.codeHash != KECCAK_EMPTY
      :: ch[a].info.codeHash
  }

  function SlotKeys(ch: Changes): set<(Address, Slot)> {
    set a, s | a in ch && s in ch[a].storage :: (a, s)
  }

  predicate Destroys(ch: Changes, a: Address) {
    a in ch && ch[a].destroyed
  }

  predicate Writes(ch: Changes, k: (Address, Slot)) {
    k.0 in ch && k.1 in ch[k.0].storage
  }

  function ApplyAccounts(m: map<Address, TrieAccount>, ch: Changes): map<Address, TrieAccount> {
    map a | a in m.Keys + ch.Keys && !Destroys(ch, a) :: if a in ch then ch[a].info.Core() else m[a]
  }

  /** Written slots get the new value, a zero deletes; a destroyed account loses the slots it does not write. */
  function ApplyStorage(m: map<(Address, Slot), Word>, ch: Changes): map<(Address, Slot), Word> {
    map k | k in m.Keys + SlotKeys(ch)
      && (if Writes(ch, k) then ch[k.0].storage[k.1] != 0 else k in m && !Destroys(ch, k.0))
      :: if Writes(ch, k) then ch[k.0].storage[k.1] else m[k]
  }

  function ApplyCode(pre: Hash -> Code, m: map<Hash, Code>, ch: Changes): map<Hash, Code> {
    map h | h in m.Keys + DepositedHashes(ch) :: if h in DepositedHashes(ch) then pre(h) else m[h]
  }

  /** One transaction's changes applied to the trie database. */
  function Apply(pre: Hash -> Code, t: Tables, ch: Changes): Tables {
    Tables(ApplyAccounts(t.accounts, ch), ApplyStorage(t.storage, ch), ApplyCode(pre, t.code, ch))
  }

  function ApplyAll(pre: Hash -> Code, t: Tables, chs: seq<Changes>): Tables {
    if chs == [] then t else Apply(pre, ApplyAll(pre, t, chs[..|chs| - 1]), chs[|chs| - 1])
  }

  /** What the cache makes of a change set: it never looks at the self-destruct mark. */
  function Undestroyed(ch: Changes): Changes {
    map a | a in ch :: ch[a].(destroyed := false)
  }

  function Overlay(pre: Hash -> Code, t: Tables, ch: Changes): Tables {
    Apply(pre, t, Undestroyed(ch))
  }

  function OverlayAll(pre: Hash -> Code, t: Tables, chs: seq<Changes>): Tables {
    if chs == [] then t else Overlay(pre, OverlayAll(pre, t, chs[..|chs| - 1]), chs[|chs| - 1])
  }

  predicate NoneDestroyed(ch: Changes) {
    forall a :: a in ch ==> !ch[a].destroyed
  }

  // ------------------------------------------------------------ reads after changes

  lemma AccountAfter(pre: Hash -> Code, t: Tables, ch: Changes, a: Address)
    ensures AccountAt(Apply(pre, t, ch), a)
            == if a !in ch then AccountAt(t, a) else if ch[a].destroyed then None else Some(ch[a].info.Core())
  {
  }

  lemma SlotAfter(pre: Hash -> Code, t: Tables, ch: Changes, a: Address, s: Slot)
    ensures SlotAt(Apply(pre, t, ch), a, s)
            == if Writes(ch, (a, s)) then ch[a].storage[s] else if Destroys(ch, a) then 0 else SlotAt(t, a, s)
  {
    assert (a, s) in SlotKeys(ch) <==> Writes(ch, (a, s));
  }

  lemma CodeAfter(pre: Hash -> Code, t: Tables, ch: Changes, h: Hash)
    ensures CodeAt(Apply(pre, t, ch), h) == if h in DepositedHashes(ch) then pre(h) else CodeAt(t, h)
  {
  }

  /** Stores that read the same still do after the same changes. */
  lemma ApplyKeepsSameReads(pre: Hash -> Code, t: Tables, u: Tables, ch: Changes)
    requires SameReads(t, u)
    ensures SameReads(Apply(pre, t, ch), Apply(pre, u, ch))
  {
    var t', u' := Apply(pre, t, ch), Apply(pre, u, ch);
    forall a ensures AccountAt(t', a) == AccountAt(u', a) {
      AccountAfter(pre, t, ch, a);
      AccountAfter(pre, u, ch, a);
    }
    forall a, s ensures SlotAt(t', a, s) == SlotAt(u', a, s) {
      SlotAfter(pre, t, ch, a, s);
      SlotAfter(pre, u, ch, a, s);
    }
    forall h ensures CodeAt(t', h) == CodeAt(u', h) {
      CodeAfter(pre, t, ch, h);
      CodeAfter(pre, u, ch, h);
    }
  }

  /** After one change set the cache and the database agree exactly when it destroyed no account. */
  lemma AgreeIffNoneDestroyed(pre: Hash -> Code, view: Tables, trie: Tables, ch: Changes)
    requires SameReads(view, trie)
    ensures SameReads(Overlay(pre, view, ch), Apply(pre, trie, ch)) <==> NoneDestroyed(ch)
  {
    if NoneDestroyed(ch) {
      assert Undestroyed(ch) == ch;
      ApplyKeepsSameReads(pre, view, trie, ch);
    } else {
      var a :| a in ch && ch[a].destroyed;
      AccountAfter(pre, view, Undestroyed(ch), a);
      AccountAfter(pre, trie, ch, a);
      assert AccountAt(Overlay(pre, view, ch), a) != AccountAt(Apply(pre, trie, ch), a);
    }
  }

  /** Block by block: as long as no transaction destroys an account, cache and database stay in step. */
  lemma {:induction false} AgreeAfterBlock(pre: Hash -> Code, view: Tables, trie: Tables, chs: seq<Changes>)
    requires SameReads(view, trie) && forall i :: 0 <= i < |chs| ==> NoneDestroyed(chs[i])
    ensures SameReads(OverlayAll(pre, view, chs), ApplyAll(pre, trie, chs))
  {
    if chs != [] {
      var init := chs[..|chs| - 1];
      AgreeAfterBlock(pre, view, trie, init);
      AgreeIffNoneDestroyed(pre, OverlayAll(pre, view, init), ApplyAll(pre, trie, init), chs[|chs| - 1]);
    }
  }

  // ------------------------------------------------------------ a whole block, read by read

  /** The state in which the last transaction that touched the account left it. */
  function LastTouch(chs: seq<Changes>, a: Address): Option<Account> {
    if chs == [] then None
    else if a in chs[|chs| - 1] then Some(chs[|chs| - 1][a])
    else LastTouch(chs[..|chs| - 1], a)
  }

  /** The value last written to the slot, whatever happened to its account. */
  function LastWrite(chs: seq<Changes>, a: Address, s: Slot): Option<Word> {
    if chs == [] then None
    else if Writes(chs[|chs| - 1], (a, s)) then Some(chs[|chs| - 1][a].storage[s])
    else LastWrite(chs[..|chs| - 1], a, s)
  }

  /** The account was destroyed after the slot was last written. */
  predicate Wiped(chs: seq<Changes>, a: Address, s: Slot) {
    chs != [] && !Writes(chs[|chs| - 1], (a, s))
    && (Destroys(chs[|chs| - 1], a) || Wiped(chs[..|chs| - 1], a, s))
  }

  /** Some transaction deposited code under the hash. */
  predicate Deposits(chs: seq<Changes>, h: Hash) {
    chs != [] && (h in DepositedHashes(chs[|chs| - 1]) || Deposits(chs[..|chs| - 1], h))
  }

  /** The same, counting the accounts that their own transaction destroyed: the cache keeps their code. */
  predicate CachesCode(chs: seq<Changes>, h: Hash) {
    chs != [] && (h in DepositedHashes(Undestroyed(chs[|chs| - 1])) || CachesCode(chs[..|chs| - 1], h))
  }

  lemma {:induction false} AccountAfterBlock(pre: Hash -> Code, t: Tables, chs: seq<Changes>, a: Address)
    ensures AccountAt(ApplyAll(pre, t, chs), a) == match LastTouch(chs, a)
      case None => AccountAt(t, a)
      case Some(acc) => if acc.destroyed then None else Some(acc.info.Core())
    ensures AccountAt(OverlayAll(pre, t, chs), a) == match LastTouch(chs, a)
      case None => AccountAt(t, a)
      case Some(acc) => Some(acc.info.Core())
  {
    if chs != [] {
      var init, last := chs[..|chs| - 1], chs[|chs| - 1];
      AccountAfterBlock(pre, t, init, a);
      AccountAfter(pre, ApplyAll(pre, t, init), last, a);
      AccountAfter(pre, OverlayAll(pre, t, init), Undestroyed(last), a);
    }
  }

  lemma {:induction false} SlotAfterBlock(pre: Hash -> Code, t: Tables, chs: seq<Changes>, a: Address, s: Slot)
    ensures SlotAt(OverlayAll(pre, t, chs), a, s) == match LastWrite(chs, a, s)
      case None => SlotAt(t, a, s)
      case Some(v) => v
    ensures SlotAt(ApplyAll(pre, t, chs), a, s)
      == if Wiped(chs, a, s) then 0 else SlotAt(OverlayAll(pre, t, chs), a, s)
  {
    if chs != [] {
      var init, last := chs[..|chs| - 1], chs[|chs| - 1];
      SlotAfterBlock(pre, t, init, a, s);
      SlotAfter(pre, ApplyAll(pre, t, init), last, a, s);
      SlotAfter(pre, OverlayAll(pre, t, init), Undestroyed(last), a, s);
    }
  }

  lemma {:induction false} CodeAfterBlock(pre: Hash -> Code, t: Tables, chs: seq<Changes>, h: Hash)
    ensures CodeAt(ApplyAll(pre, t, chs), h) == if Deposits(chs, h) then pre(h) else CodeAt(t, h)
    ensures CodeAt(OverlayAll(pre, t, chs), h) == if CachesCode(chs, h) then pre(h) else CodeAt(t, h)
    ensures Deposits(chs, h) ==> CachesCode(chs, h)
  {
    if chs != [] {
      var init, last := chs[..|chs| - 1], chs[|chs| - 1];
      CodeAfterBlock(pre, t, init, h);
      CodeAfter(pre, ApplyAll(pre, t, init), last, h);
      CodeAfter(pre, OverlayAll(pre, t, init), Undestroyed(last), h);
      DepositsSurvive(last, h);
    }
  }

  lemma DepositsSurvive(ch: Changes, h: Hash)
    ensures h in DepositedHashes(ch) ==> h in DepositedHashes(Undestroyed(ch))
  {
    if h in DepositedHashes(ch) {
      var a :| a in ch && DepositsCode(ch[a]) && !ch[a].destroyed && ch[a].info.codeHash == h && h != KECCAK_EMPTY;
      assert Undestroyed(ch)[a] == ch[a];
    }
  }

  /** The last transaction to touch the account did not destroy it. */
  predicate AccountSurvives(chs: seq<Changes>, a: Address) {
    LastTouch(chs, a).Some? ==> !LastTouch(chs, a).value.destroyed
  }

  /** What a destroyed account's slot last held, before the block or in it, is zero anyway. */
  predicate SlotSurvives(t: Tables, chs: seq<Changes>, a: Address, s: Slot) {
    Wiped(chs, a, s) ==> 0 == match LastWrite(chs, a, s)
      case None => SlotAt(t, a, s)
      case Some(v) => v
  }

  /** Code that only destroyed accounts deposited was there before, or is empty. */
  predicate CodeSurvives(pre: Hash -> Code, t: Tables, chs: seq<Changes>, h: Hash) {
    CachesCode(chs, h) && !Deposits(chs, h) ==> CodeAt(t, h) == pre(h)
  }

  lemma ReadsAgreeIff(pre: Hash -> Code, view: Tables, trie: Tables, chs: seq<Changes>)
    requires SameReads(view, trie)
    ensures forall a ::
      (AccountAt(OverlayAll(pre, view, chs), a) == AccountAt(ApplyAll(pre, trie, chs), a) <==> AccountSurvives(chs, a))
    ensures forall a, s ::
      (SlotAt(OverlayAll(pre, view, chs), a, s) == SlotAt(ApplyAll(pre, trie, chs), a, s)
       <==> SlotSurvives(trie, chs, a, s))
    ensures forall h ::
      (CodeAt(OverlayAll(pre, view, chs), h) == CodeAt(ApplyAll(pre, trie, chs), h)
       <==> CodeSurvives(pre, trie, chs, h))
  {
    forall a
      ensures AccountAt(OverlayAll(pre, view, chs), a) == AccountAt(ApplyAll(pre, trie, chs), a)
        <==> AccountSurvives(chs, a)
    {
      AccountAfterBlock(pre, view, chs, a);
      AccountAfterBlock(pre, trie, chs, a);
    }
    forall a, s
      ensures SlotAt(OverlayAll(pre, view, chs), a, s) == SlotAt(ApplyAll(pre, trie, chs), a, s)
        <==> SlotSurvives(trie, chs, a, s)
    {
      SlotAfterBlock(pre, view, chs, a, s);
      SlotAfterBlock(pre, trie, chs, a, s);
    }
    forall h
      ensures CodeAt(OverlayAll(pre, view, chs), h) == CodeAt(ApplyAll(pre, trie, chs), h)
        <==> CodeSurvives(pre, trie, chs, h)
    {
      CodeAfterBlock(pre, view, chs, h);
      CodeAfterBlock(pre, trie, chs, h);
    }
  }

  /** For any block, self-destructs included: when cache and database agree about everything afterwards. */
  lemma BlockAgreesIff(pre: Hash -> Code, view: Tables, trie: Tables, chs: seq<Changes>)
    requires SameReads(view, trie)
    ensures SameReads(OverlayAll(pre, view, chs), ApplyAll(pre, trie, chs)) <==>
      && (forall a :: AccountSurvives(chs, a))
      && (forall a, s :: SlotSurvives(trie, chs, a, s))
      && (forall h :: CodeSurvives(pre, trie, chs, h))
  {
    ReadsAgreeIff(pre, view, trie, chs);
  }

  predicate LeavesAccount(t: Tables, chs: seq<Changes>, a: Address) {
    LastTouch(chs, a).Some? ==> AccountAt(t, a) == Some(LastTouch(chs, a).value.info.Core())
  }

  predicate LeavesSlot(t: Tables, chs: seq<Changes>, a: Address, s: Slot) {
    LastWrite(chs, a, s).Some? ==> SlotAt(t, a, s) == LastWrite(chs, a, s).value
  }

  predicate LeavesCode(pre: Hash -> Code, t: Tables, chs: seq<Changes>, h: Hash) {
    CachesCode(chs, h) ==> CodeAt(t, h) == pre(h)
  }

  lemma OverlayLeavesIff(pre: Hash -> Code, t: Tables, chs: seq<Changes>)
    ensures forall a :: (AccountAt(OverlayAll(pre, t, chs), a) == AccountAt(t, a) <==> LeavesAccount(t, chs, a))
    ensures forall a, s :: (SlotAt(OverlayAll(pre, t, chs), a, s) == SlotAt(t, a, s) <==> LeavesSlot(t, chs, a, s))
    ensures forall h :: (CodeAt(OverlayAll(pre, t, chs), h) == CodeAt(t, h) <==> LeavesCode(pre, t, chs, h))
  {
    var over := OverlayAll(pre, t, chs);
    forall a ensures AccountAt(over, a) == AccountAt(t, a) <==> LeavesAccount(t, chs, a) {
      AccountAfterBlock(pre, t, chs, a);
    }
    forall a, s ensures SlotAt(over, a, s) == SlotAt(t, a, s) <==> LeavesSlot(t, chs, a, s) {
      SlotAfterBlock(pre, t, chs, a, s);
    }
    forall h ensures CodeAt(over, h) == CodeAt(t, h) <==> LeavesCode(pre, t, chs, h) {
      CodeAfterBlock(pre, t, chs, h);
    }
  }

  /** Changes that only one of the stores sees go unnoticed exactly when every key was last written its old value. */
  lemma OverlayUnnoticedIff(pre: Hash -> Code, t: Tables, chs: seq<Changes>)
    ensures SameReads(OverlayAll(pre, t, chs), t) <==>
      && (forall a :: LeavesAccount(t, chs, a))
      && (forall a, s :: LeavesSlot(t, chs, a, s))
      && (forall h :: LeavesCode(pre, t, chs, h))
  {
    OverlayLeavesIff(pre, t, chs);
  }

  /** A block whose last transaction destroys an account always leaves the cache wrong about it. */
  lemma DestroyedAccountStaysCached(pre: Hash -> Code, view: Tables, trie: Tables, chs: seq<Changes>, a: Address)
    requires chs != [] && Destroys(chs[|chs| - 1], a)
    ensures AccountAt(ApplyAll(pre, trie, chs), a) == None
    ensures AccountAt(OverlayAll(pre, view, chs), a) == Some(chs[|chs| - 1][a].info.Core())
  {
    AccountAfterBlock(pre, trie, chs, a);
    AccountAfterBlock(pre, view, chs, a);
  }

  /** Last writer wins: an account is what the last transaction touching it left. */
  lemma {:induction false} LastAccountWriterWins(pre: Hash -> Code, t: Tables, chs: seq<Changes>, i: nat, a: Address)
    requires i < |chs| && a in chs[i] && forall j :: i < j < |chs| ==> a !in chs[j]
    ensures AccountAt(ApplyAll(pre, t, chs), a) == if chs[i][a].destroyed then None else Some(chs[i][a].info.Core())
  {
    var init, last := chs[..|chs| - 1], chs[|chs| - 1];
    AccountAfter(pre, ApplyAll(pre, t, init), last, a);
    if i < |chs| - 1 {
      LastAccountWriterWins(pre, t, init, i, a);
    }
  }

  /** A slot holds what was last written to it, unless its account was destroyed later. */
  lemma {:induction false} LastSlotWriterWins(pre: Hash -> Code, t: Tables, chs: seq<Changes>, i: nat,
                                              a: Address, s: Slot)
    requires i < |chs| && Writes(chs[i], (a, s))
    requires forall j :: i < j < |chs| ==> !Writes(chs[j], (a, s)) && !Destroys(chs[j], a)
    ensures SlotAt(ApplyAll(pre, t, chs), a, s) == chs[i][a].storage[s]
  {
    var init, last := chs[..|chs| - 1], chs[|chs| - 1];
    SlotAfter(pre, ApplyAll(pre, t, init), last, a, s);
    if i < |chs| - 1 {
      LastSlotWriterWins(pre, t, init, i, a, s);
    }
  }

  // ------------------------------------------------------------ one account at a time

  /** The changes of the accounts in `done` only. */
  function Part(ch: Changes, done: set<Address>): Changes {
    map a | a in ch && a in done :: ch[a]
  }

  function Single(a: Address, acc: Account): Changes {
    map[a := acc]
  }

  /** Accounts can be written one after another, in any order. */
  lemma PartStep(pre: Hash -> Code, t: Tables, ch: Changes, done: set<Address>, a: Address)
    requires a in ch && a !in done
    ensures Apply(pre, Apply(pre, t, Part(ch, done)), Single(a, ch[a])) == Apply(pre, t, Part(ch, done + {a}))
  {
    PartStepAccounts(t, ch, done, a);
    PartStepStorage(t, ch, done, a);
    PartStepCode(pre, t, ch, done, a);
  }

  lemma PartStepAccounts(t: Tables, ch: Changes, done: set<Address>, a: Address)
    requires a in ch && a !in done
    ensures ApplyAccounts(ApplyAccounts(t.accounts, Part(ch, done)), Single(a, ch[a]))
            == ApplyAccounts(t.accounts, Part(ch, done + {a}))
  {
    var p, q, one := Part(ch, done), Part(ch, done + {a}), Single(a, ch[a]);
    assert forall b :: b in q <==> b in p || b in one;
    assert forall b :: Destroys(q, b) <==> Destroys(p, b) || Destroys(one, b);
  }

  lemma PartStepStorage(t: Tables, ch: Changes, done: set<Address>, a: Address)
    requires a in ch && a !in done
    ensures ApplyStorage(ApplyStorage(t.storage, Part(ch, done)), Single(a, ch[a]))
            == ApplyStorage(t.storage, Part(ch, done + {a}))
  {
    var p, q, one := Part(ch, done), Part(ch, done + {a}), Single(a, ch[a]);
    var lhs, rhs := ApplyStorage(ApplyStorage(t.storage, p), one), ApplyStorage(t.storage, q);
    forall k: (Address, Slot)
      ensures k in lhs <==> k in rhs
      ensures k in lhs ==> lhs[k] == rhs[k]
    {
      assert forall c: Changes :: k in SlotKeys(c) <==> Writes(c, k);
      assert Writes(q, k) <==> Writes(p, k) || Writes(one, k);
    }
  }

  lemma DepositsOfPart(ch: Changes, done: set<Address>, a: Address)
    requires a in ch && a !in done
    ensures DepositedHashes(Part(ch, done + {a})) == DepositedHashes(Part(ch, done)) + DepositedHashes(Single(a, ch[a]))
  {
    var p, q, one := Part(ch, done), Part(ch, done + {a}), Single(a, ch[a]);
    forall h | h in DepositedHashes(q) ensures h in DepositedHashes(p) + DepositedHashes(one) {
      var b :| b in q && DepositsCode(q[b]) && !q[b].destroyed && q[b].info.codeHash == h && h != KECCAK_EMPTY;
      assert if b == a then b in one && one[b] == q[b] else b in p && p[b] == q[b];
    }
    forall h | h in DepositedHashes(p) + DepositedHashes(one) ensures h in DepositedHashes(q) {
      if h in DepositedHashes(p) {
        var b :| b in p && DepositsCode(p[b]) && !p[b].destroyed && p[b].info.codeHash == h && h != KECCAK_EMPTY;
        assert b in q && q[b] == p[b];
      } else {
        assert a in q && q[a] == one[a];
      }
    }
  }

  lemma PartStepCode(pre: Hash -> Code, t: Tables, ch: Changes, done: set<Address>, a: Address)
    requires a in ch && a !in done
    ensures ApplyCode(pre, ApplyCode(pre, t.code, Part(ch, done)), Single(a, ch[a]))
            == ApplyCode(pre, t.code, Part(ch, done + {a}))
  {
    DepositsOfPart(ch, done, a);
  }

  /** The accounts of `order` written one by one. */
  function WriteInOrder(pre: Hash -> Code, t: Tables, ch: Changes, order: seq<Address>): Tables
    requires forall i :: 0 <= i < |order| ==> order[i] in ch
  {
    if order == [] then t
    else
      var a := order[|order| - 1];
      Apply(pre, WriteInOrder(pre, t, ch, order[..|order| - 1]), Single(a, ch[a]))
  }

  function Listed(order: seq<Address>): set<Address> {
    set i | 0 <= i < |order| :: order[i]
  }

  /** Whatever order a change map is iterated in, writing it account by account has the one effect `Apply`. */
  lemma IterationOrderIsIrrelevant(pre: Hash -> Code, t: Tables, ch: Changes, order: seq<Address>)
    requires forall i, j :: 0 <= i < j < |order| ==> order[i] != order[j]
    requires forall i :: 0 <= i < |order| ==> order[i] in ch
    ensures WriteInOrder(pre, t, ch, order) == Apply(pre, t, Part(ch, Listed(order)))
    ensures Listed(order) == ch.Keys ==> WriteInOrder(pre, t, ch, order) == Apply(pre, t, ch)
  {
    WrittenInOrder(pre, t, ch, order);
    WholeIsPart(ch, Listed(order));
  }

  lemma WholeIsPart(ch: Changes, done: set<Address>)
    ensures done == ch.Keys ==> Part(ch, done) == ch
  {
  }

  lemma ListedSnoc(order: seq<Address>)
    requires order != []
    ensures Listed(order) == Listed(order[..|order| - 1]) + {order[|order| - 1]}
  {
    var n := |order| - 1;
    forall a | a in Listed(order) ensures a in Listed(order[..n]) + {order[n]} {
      var i :| 0 <= i < |order| && order[i] == a;
      assert i < n ==> order[..n][i] == a;
    }
  }

  lemma {:induction false} WrittenInOrder(pre: Hash -> Code, t: Tables, ch: Changes, order: seq<Address>)
    requires forall i, j :: 0 <= i < j < |order| ==> order[i] != order[j]
    requires forall i :: 0 <= i < |order| ==> order[i] in ch
    ensures WriteInOrder(pre, t, ch, order) == Apply(pre, t, Part(ch, Listed(order)))
  {
    if order == [] {
      ApplyNothing(pre, t);
      assert Part(ch, Listed([])) == map[];
    } else {
      var init, a := order[..|order| - 1], order[|order| - 1];
      WrittenInOrder(pre, t, ch, init);
      NotListed(order);
      PartStep(pre, t, ch, Listed(init), a);
      ListedSnoc(order);
    }
  }

  lemma NotListed(order: seq<Address>)
    requires order != [] && forall i, j :: 0 <= i < j < |order| ==> order[i] != order[j]
    ensures order[|order| - 1] !in Listed(order[..|order| - 1])
  {
  }

  lemma ApplyNothing(pre: Hash -> Code, t: Tables)
    ensures Apply(pre, t, map[]) == t
  {
    assert ApplyStorage(t.storage, map[]) == t.storage;
    assert DepositedHashes(map[]) == {};
  }

  lemma ApplyAllSnoc(pre: Hash -> Code, t: Tables, chs: seq<Changes>, ch: Changes)
    ensures ApplyAll(pre, t, chs + [ch]) == Apply(pre, ApplyAll(pre, t, chs), ch)
    ensures OverlayAll(pre, t, chs + [ch]) == Overlay(pre, OverlayAll(pre, t, chs), ch)
  {
    assert (chs + [ch])[..|chs|] == chs;
  }
}
