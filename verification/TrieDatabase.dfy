/** The trie database: committed account state, code and headers, and the one write transaction of a block. */
module TrieDb {
  import opened Basics
  import opened Store

  /** The code store after the first `n` change sets and the accounts `done` of the next one. */
  function CodeSoFar(pre: Hash -> Code, was: Tables, chs: seq<Changes>, n: nat, done: set<Address>): map<Hash, Code>
    requires n <= |chs|
  {
    ApplyCode(pre, ApplyAll(pre, was, chs[..n]).code, if n < |chs| then Part(chs[n], done) else map[])
  }

  /** What a failed commit can leave: the whole block without its header, or only the code of its first accounts. */
  ghost predicate HalfCommitted(pre: Hash -> Code, was: Tables, now: Tables, chs: seq<Changes>) {
    || now == ApplyAll(pre, was, chs)
    || exists n: nat, done: set<Address> :: n <= |chs| && now == was.(code := CodeSoFar(pre, was, chs, n, done))
  }

  class TrieDatabase {
    ghost const pre: Hash -> Code
    var accounts: map<Address, TrieAccount>
    var storage: map<(Address, Slot), Word>
    var code: map<Hash, Code>
    /** The state root stored with each block's header stands for the state it commits to. */
    var headers: map<nat, (map<Address, TrieAccount>, map<(Address, Slot), Word>)>

    function Contents(): Tables
      reads this
    {
      Tables(accounts, storage, code)
    }

    constructor (ghost pre: Hash -> Code)
      ensures this.pre == pre && Contents() == Tables(map[], map[], map[]) && fresh(this)
    {
      this.pre := pre;
      accounts, storage, code, headers := map[], map[], map[], map[];
    }

    function BasicRef(a: Address): (r: Option<AccountInfo>)
      reads this
      ensures r.Some? <==> AccountAt(Contents(), a).Some?
      ensures r.Some? ==> Some(r.value.Core()) == AccountAt(Contents(), a)
      ensures r.Some? && r.value.code.Some? ==> r.value.codeHash in code && code[r.value.codeHash] == r.value.code.value
      ensures r.Some? && r.value.codeHash in code && r.value.codeHash != KECCAK_EMPTY ==> r.value.code.Some?
    {
      if a !in accounts then None
      else
        var acc := accounts[a];
        var found := if acc.codeHash != KECCAK_EMPTY && acc.codeHash in code then Some(code[acc.codeHash]) else None;
        Some(AccountInfo(acc.nonce, acc.balance, acc.codeHash, found))
    }

    function StorageRef(a: Address, s: Slot): Word
      reads this
    {
      SlotAt(Contents(), a, s)
    }

    function CodeByHashRef(h: Hash): Code
      reads this
    {
      CodeAt(Contents(), h)
    }

    /** Writes one account's slots into the open transaction, in whatever order the map yields them. */
    method WriteSlots(open: map<(Address, Slot), Word>, a: Address, slots: map<Slot, Word>)
      returns (tx: map<(Address, Slot), Word>)
      ensures forall k :: k in tx <==> if k.0 == a && k.1 in slots then slots[k.1] != 0 else k in open
      ensures forall k :: k in tx ==> tx[k] == if k.0 == a && k.1 in slots then slots[k.1] else open[k]
    {
      tx := open;
      var left := slots.Keys;
      while left != {}
        invariant left <= slots.Keys
        invariant forall k :: k in tx <==>
          if k.0 == a && k.1 in slots && k.1 !in left then slots[k.1] != 0 else k in open
        invariant forall k :: k in tx ==>
          tx[k] == if k.0 == a && k.1 in slots && k.1 !in left then slots[k.1] else open[k]
      {
        var s :| s in left;
        if slots[s] == 0 {
          tx := tx - {(a, s)};
        } else {
          tx := tx[(a, s) := slots[s]];
        }
        left := left - {s};
      }
    }

    /** Writes one account into the open transaction; deleting it takes its slots along. Code has its own store. */
    method WriteAccount(open: Tables, a: Address, acc: Account) returns (tx: Tables)
      requires HashedChanges(pre, Single(a, acc))
      ensures tx == Apply(pre, open, Single(a, acc))
    {
      var accounts, storage, code := open.accounts, open.storage, open.code;
      if acc.destroyed {
        accounts := accounts - {a};
        storage := map k | k in storage && k.0 != a :: storage[k];
      } else {
        accounts := accounts[a := acc.info.Core()];
        if acc.info.code.Some? && acc.info.code.value != [] && acc.info.codeHash != KECCAK_EMPTY {
          code := code[acc.info.codeHash := acc.info.code.value];
        }
      }
      storage := WriteSlots(storage, a, acc.storage);
      SingleAccount(open, a, acc, accounts);
      SingleStorage(open, a, acc, storage);
      SingleCode(open, a, acc, code);
      tx := Tables(accounts, storage, code);
    }

    lemma SingleAccount(open: Tables, a: Address, acc: Account, accounts: map<Address, TrieAccount>)
      requires accounts == if acc.destroyed then open.accounts - {a} else open.accounts[a := acc.info.Core()]
      ensures accounts == ApplyAccounts(open.accounts, Single(a, acc))
    {
    }

    lemma SingleStorage(open: Tables, a: Address, acc: Account, storage: map<(Address, Slot), Word>)
      requires forall k :: k in storage <==>
        if k.0 == a && k.1 in acc.storage then acc.storage[k.1] != 0
        else k in open.storage && !(acc.destroyed && k.0 == a)
      requires forall k :: k in storage ==>
        storage[k] == if k.0 == a && k.1 in acc.storage then acc.storage[k.1] else open.storage[k]
      ensures storage == ApplyStorage(open.storage, Single(a, acc))
    {
      var rhs := ApplyStorage(open.storage, Single(a, acc));
      forall k: (Address, Slot) ensures k in storage <==> k in rhs {
        assert k in SlotKeys(Single(a, acc)) <==> Writes(Single(a, acc), k);
      }
    }

    lemma SingleCode(open: Tables, a: Address, acc: Account, code: map<Hash, Code>)
      requires HashedChanges(pre, Single(a, acc))
      requires code == if !acc.destroyed && DepositsCode(acc) && acc.info.codeHash != KECCAK_EMPTY
                       then open.code[acc.info.codeHash := acc.info.code.value] else open.code
      ensures code == ApplyCode(pre, open.code, Single(a, acc))
    {
      var one := Single(a, acc);
      assert a in one && one[a] == acc;
      assert DepositedHashes(one) == if !acc.destroyed && DepositsCode(acc) && acc.info.codeHash != KECCAK_EMPTY
                                     then {acc.info.codeHash} else {};
    }

    /**
     Writes one transaction's change map, in whatever order the map yields its accounts. A failure can come before,
     in or after any account; what counts then is only the code written so far, because code has no transaction.
     */
    method WriteChanges(open: Tables, ch: Changes, faulty: bool)
      returns (ok: bool, tx: Tables, ghost done: set<Address>)
      requires HashedChanges(pre, ch)
      ensures ok ==> tx == Apply(pre, open, ch)
      ensures !ok ==> faulty && tx.code == ApplyCode(pre, open.code, Part(ch, done))
    {
      tx := open;
      var left := ch.Keys;
      done := {};
      ApplyNothing(pre, open);
      assert Part(ch, {}) == map[];
      while left != {}
        invariant left + done == ch.Keys && left !! done
        invariant tx == Apply(pre, open, Part(ch, done))
        decreases left
      {
        var fails: bool := *;
        if faulty && fails {
          return false, tx, done;
        }
        var a :| a in left;
        assert Single(a, ch[a])[a] == ch[a];
        PartStep(pre, open, ch, done, a);
        tx := WriteAccount(tx, a, ch[a]);
        left, done := left - {a}, done + {a};
      }
      assert Part(ch, done) == ch;
      var slotFails: bool := *;
      ok := !(faulty && slotFails);
    }

    /**
     All of a block's changes in one transaction: on success exactly they are applied and the header is stored.
     A failure leaves accounts and slots either untouched or, when only the header could not be stored, updated.
     */
    method CommitBlock(number: nat, chs: seq<Changes>, faulty: bool) returns (ok: bool)
      requires forall i :: 0 <= i < |chs| ==> HashedChanges(pre, chs[i])
      modifies this
      ensures ok ==> Contents() == ApplyAll(pre, old(Contents()), chs)
      ensures ok ==> headers == old(headers)[number := (accounts, storage)]
      ensures !ok ==> faulty && headers == old(headers) && HalfCommitted(pre, old(Contents()), Contents(), chs)
    {
      ghost var was := Contents();
      var tx := Contents();
      for i := 0 to |chs|
        invariant tx == ApplyAll(pre, was, chs[..i]) && unchanged(this)
      {
        var written, tx';
        ghost var done;
        written, tx', done := WriteChanges(tx, chs[i], faulty);
        if !written {
          code := tx'.code;
          assert Contents() == was.(code := CodeSoFar(pre, was, chs, i, done));
          return false;
        }
        ApplyAllSnoc(pre, was, chs[..i], chs[i]);
        assert chs[..i + 1] == chs[..i] + [chs[i]];
        tx := tx';
      }
      assert chs[..|chs|] == chs;
      code := tx.code;
      var commitFails: bool, headerFails: bool := *, *;
      if faulty && commitFails {
        ApplyNothing(pre, tx);
        assert Contents() == was.(code := CodeSoFar(pre, was, chs, |chs|, {}));
        return false;
      }
      accounts, storage := tx.accounts, tx.storage;
      if faulty && headerFails {
        return false;
      }
      headers := headers[number := (accounts, storage)];
      return true;
    }
  }
}
