/**
 Block execution over the cached database. EVM execution is an arbitrary adaptive program: what it reads next, and
 in the end what it changes, may depend on every answer it got so far; gas bounds the number of its reads.
 */
module Executor {
  import opened Basics
  import opened Store
  import opened TrieDb
  import opened CachedDb

  datatype Answer = AccountAnswer(account: Option<TrieAccount>) | WordAnswer(word: Word) | CodeAnswer(code: Code)

  datatype Request =
    | ReadAccount(address: Address)
    | ReadSlot(owner: Address, slot: Slot)
    | ReadCode(hash: Hash)
    | Finish(changes: Changes)
    | Abort

  /** `outOfGas` is how the program ends when its gas is used up; `None` stands for an execution error. */
  datatype Tx = Tx(next: seq<Answer> -> Request, gas: nat, outOfGas: seq<Answer> -> Option<Changes>)

  function AnswerFrom(t: Tables, q: Request): Answer
    requires q.ReadAccount? || q.ReadSlot? || q.ReadCode?
  {
    match q
    case ReadAccount(a) => AccountAnswer(AccountAt(t, a))
    case ReadSlot(a, s) => WordAnswer(SlotAt(t, a, s))
    case ReadCode(h) => CodeAnswer(CodeAt(t, h))
  }

  /** The transaction run against a plain store. */
  function Run(tx: Tx, t: Tables, answers: seq<Answer>): Option<Changes>
    decreases SaturatingSub(tx.gas, |answers|)
  {
    if |answers| >= tx.gas then tx.outOfGas(answers)
    else
      var q := tx.next(answers);
      match q
      case Finish(ch) => Some(ch)
      case Abort => None
      case _ => Run(tx, t, answers + [AnswerFrom(t, q)])
  }

  /** A transaction's outcome depends on the store only through what it reads. */
  lemma {:induction false} RunDependsOnReads(tx: Tx, t: Tables, u: Tables, answers: seq<Answer>)
    requires SameReads(t, u)
    ensures Run(tx, t, answers) == Run(tx, u, answers)
    decreases SaturatingSub(tx.gas, |answers|)
  {
    if |answers| < tx.gas {
      var q := tx.next(answers);
      if q.ReadAccount? || q.ReadSlot? || q.ReadCode? {
        assert AnswerFrom(t, q) == AnswerFrom(u, q);
        RunDependsOnReads(tx, t, u, answers + [AnswerFrom(t, q)]);
      }
    }
  }

  /** Any code a transaction deposits is the code its hash stands for. */
  ghost predicate Honest(pre: Hash -> Code, tx: Tx) {
    forall answers: seq<Answer> ::
      && (tx.next(answers).Finish? ==> HashedChanges(pre, tx.next(answers).changes))
      && (tx.outOfGas(answers).Some? ==> HashedChanges(pre, tx.outOfGas(answers).value))
  }

  /** The change sets of a block's transactions up to the first error. */
  datatype Execution = Execution(changes: seq<Changes>, aborted: bool)

  /** The block run over the cache's overlay. */
  function RunTxs(pre: Hash -> Code, t: Tables, txs: seq<Tx>): Execution {
    if txs == [] then Execution([], false)
    else
      var e := RunTxs(pre, t, txs[..|txs| - 1]);
      if e.aborted then e
      else match Run(txs[|txs| - 1], OverlayAll(pre, t, e.changes), [])
        case None => e.(aborted := true)
        case Some(ch) => e.(changes := e.changes + [ch])
  }

  /** The reference: no cache at all, each transaction's changes written to the database before the next one runs. */
  function RunUncached(pre: Hash -> Code, t: Tables, txs: seq<Tx>): Execution {
    if txs == [] then Execution([], false)
    else
      var e := RunUncached(pre, t, txs[..|txs| - 1]);
      if e.aborted then e
      else match Run(txs[|txs| - 1], ApplyAll(pre, t, e.changes), [])
        case None => e.(aborted := true)
        case Some(ch) => e.(changes := e.changes + [ch])
  }

  predicate NoneDestroyedIn(chs: seq<Changes>) {
    forall i :: 0 <= i < |chs| ==> NoneDestroyed(chs[i])
  }

  /**
   The cache is transparent: executing a block over a coherent cache, with the database updated only at the end of
   the block, gives each transaction exactly the result it has without a cache and with immediate writes.
   */
  lemma {:induction false} CachedRunEqualsUncached(pre: Hash -> Code, view: Tables, trie: Tables, txs: seq<Tx>)
    requires SameReads(view, trie) && NoneDestroyedIn(RunTxs(pre, view, txs).changes)
    ensures RunTxs(pre, view, txs) == RunUncached(pre, trie, txs)
  {
    if txs != [] {
      var init := txs[..|txs| - 1];
      var e := RunTxs(pre, view, init);
      var all := RunTxs(pre, view, txs).changes;
      assert forall i :: 0 <= i < |e.changes| ==> e.changes[i] == all[i];
      CachedRunEqualsUncached(pre, view, trie, init);
      if !e.aborted {
        AgreeAfterBlock(pre, view, trie, e.changes);
        RunDependsOnReads(txs[|txs| - 1], OverlayAll(pre, view, e.changes), ApplyAll(pre, trie, e.changes), []);
      }
    }
  }

  lemma {:induction false} AbortSticks(pre: Hash -> Code, t: Tables, txs: seq<Tx>, n: nat)
    requires n <= |txs| && RunTxs(pre, t, txs[..n]).aborted
    ensures RunTxs(pre, t, txs) == RunTxs(pre, t, txs[..n])
  {
    if n == |txs| {
      assert txs[..n] == txs;
    } else {
      var init := txs[..|txs| - 1];
      assert init[..n] == txs[..n];
      AbortSticks(pre, t, init, n);
    }
  }

  ghost predicate AllHonest(pre: Hash -> Code, txs: seq<Tx>) {
    forall i :: 0 <= i < |txs| ==> Honest(pre, txs[i])
  }

  /** Every change set has gone through the cache. */
  ghost predicate AllCached(pre: Hash -> Code, accounts: map<Address, AccountInfo>, storage: map<(Address, Slot), Word>,
                            code: map<Hash, Code>, chs: seq<Changes>) {
    forall i :: 0 <= i < |chs| ==> HashedChanges(pre, chs[i]) && Covers(accounts, storage, code, chs[i])
  }

  lemma StillCached(pre: Hash -> Code, accounts: map<Address, AccountInfo>, storage: map<(Address, Slot), Word>,
                    code: map<Hash, Code>, accounts': map<Address, AccountInfo>, storage': map<(Address, Slot), Word>,
                    code': map<Hash, Code>, chs: seq<Changes>)
    requires AllCached(pre, accounts, storage, code, chs)
    requires accounts.Keys <= accounts'.Keys && storage.Keys <= storage'.Keys && code.Keys <= code'.Keys
    ensures AllCached(pre, accounts', storage', code', chs)
  {
  }

  /** One more transaction that succeeded over the present view `was` and led to the view `now`. */
  lemma OneMoreTx(pre: Hash -> Code, start: Tables, txs: seq<Tx>, i: nat, done: seq<Changes>,
                  was: Tables, now: Tables, ch: Changes)
    requires i < |txs| && RunTxs(pre, start, txs[..i]) == Execution(done, false)
    requires SameReads(was, OverlayAll(pre, start, done))
    requires Run(txs[i], was, []) == Some(ch) && SameReads(now, Overlay(pre, was, ch))
    ensures RunTxs(pre, start, txs[..i + 1]) == Execution(done + [ch], false)
    ensures SameReads(now, OverlayAll(pre, start, done + [ch]))
  {
    RunDependsOnReads(txs[i], was, OverlayAll(pre, start, done), []);
    assert txs[..i + 1][..i] == txs[..i];
    ApplyKeepsSameReads(pre, was, OverlayAll(pre, start, done), Undestroyed(ch));
    ApplyAllSnoc(pre, start, done, ch);
  }

  lemma OneTxFails(pre: Hash -> Code, start: Tables, txs: seq<Tx>, i: nat, done: seq<Changes>, was: Tables)
    requires i < |txs| && RunTxs(pre, start, txs[..i]) == Execution(done, false)
    requires SameReads(was, OverlayAll(pre, start, done)) && Run(txs[i], was, []) == None
    ensures RunTxs(pre, start, txs) == Execution(done, true)
  {
    RunDependsOnReads(txs[i], was, OverlayAll(pre, start, done), []);
    assert txs[..i + 1][..i] == txs[..i];
    AbortSticks(pre, start, txs, i + 1);
  }

  /** What a completed block leaves behind, when it destroyed nothing and began with a coherent cache. */
  lemma BlockKeepsCoherence(pre: Hash -> Code, view: Tables, trie: Tables, txs: seq<Tx>, chs: seq<Changes>, now: Tables)
    requires SameReads(view, trie) && NoneDestroyedIn(chs) && RunTxs(pre, view, txs) == Execution(chs, false)
    requires SameReads(now, OverlayAll(pre, view, chs))
    ensures SameReads(now, ApplyAll(pre, trie, chs))
    ensures RunUncached(pre, trie, txs) == Execution(chs, false)
  {
    AgreeAfterBlock(pre, view, trie, chs);
    CachedRunEqualsUncached(pre, view, trie, txs);
  }

  // ------------------------------------------------------------ blocks that break off

  function NonceAt(t: Tables, a: Address): nat {
    if AccountAt(t, a).Some? then AccountAt(t, a).value.nonce else 0
  }

  /** Some nonce goes up and none goes down. */
  ghost predicate RaisesNonce(t: Tables, ch: Changes) {
    && (exists a :: a in ch && ch[a].info.nonce > NonceAt(t, a))
    && (forall a :: a in ch ==> ch[a].info.nonce >= NonceAt(t, a))
  }

  /** What the EVM does for every transaction it executes at all, reverted ones included: it counts a nonce. */
  ghost predicate CountsNonces(txs: seq<Tx>) {
    forall i, t: Tables :: 0 <= i < |txs| && Run(txs[i], t, []).Some? ==> RaisesNonce(t, Run(txs[i], t, []).value)
  }

  ghost predicate SomeNonceAbove(over: Tables, t: Tables) {
    exists a :: NonceAt(over, a) > NonceAt(t, a)
  }

  lemma NoncesAfter(pre: Hash -> Code, t: Tables, over: Tables, ch: Changes)
    requires RaisesNonce(over, ch) && forall a :: NonceAt(over, a) >= NonceAt(t, a)
    ensures forall a :: NonceAt(Overlay(pre, over, ch), a) >= NonceAt(t, a)
    ensures SomeNonceAbove(Overlay(pre, over, ch), t)
  {
    var now := Overlay(pre, over, ch);
    forall a ensures NonceAt(now, a) == if a in ch then ch[a].info.nonce else NonceAt(over, a) {
      AccountAfter(pre, over, Undestroyed(ch), a);
    }
    var a :| a in ch && ch[a].info.nonce > NonceAt(over, a);
    assert NonceAt(now, a) > NonceAt(t, a);
  }

  /** Whatever a block has committed to the cache before it broke off shows in some nonce. */
  lemma {:induction false} CommittedShowsInNonces(pre: Hash -> Code, t: Tables, txs: seq<Tx>)
    requires CountsNonces(txs)
    ensures var chs := RunTxs(pre, t, txs).changes; var over := OverlayAll(pre, t, chs);
      && (forall a :: NonceAt(over, a) >= NonceAt(t, a))
      && (chs != [] ==> SomeNonceAbove(over, t))
  {
    if txs != [] {
      var n := |txs| - 1;
      assert forall i :: 0 <= i < n ==> txs[..n][i] == txs[i];
      CommittedShowsInNonces(pre, t, txs[..n]);
      var e := RunTxs(pre, t, txs[..n]);
      var over := OverlayAll(pre, t, e.changes);
      if !e.aborted && Run(txs[n], over, []).Some? {
        ApplyAllSnoc(pre, t, e.changes, Run(txs[n], over, []).value);
        NoncesAfter(pre, t, over, Run(txs[n], over, []).value);
      }
    }
  }

  /** A block that broke off has committed nothing exactly when its first transaction failed. */
  lemma {:induction false} NothingCommittedIff(pre: Hash -> Code, t: Tables, txs: seq<Tx>)
    requires txs != [] && RunTxs(pre, t, txs).aborted
    ensures RunTxs(pre, t, txs).changes == [] <==> Run(txs[0], t, []) == None
  {
    var n := |txs| - 1;
    if n == 0 {
      assert txs[..0] == [];
    } else {
      var e := RunTxs(pre, t, txs[..n]);
      if e.aborted {
        NothingCommittedIff(pre, t, txs[..n]);
      } else {
        SucceededIsCommitted(pre, t, txs[..n]);
      }
    }
  }

  lemma {:induction false} SucceededIsCommitted(pre: Hash -> Code, t: Tables, txs: seq<Tx>)
    requires txs != [] && !RunTxs(pre, t, txs).aborted
    ensures RunTxs(pre, t, txs).changes != [] && Run(txs[0], t, []).Some?
  {
    if |txs| == 1 {
      assert txs[..0] == [];
    } else {
      SucceededIsCommitted(pre, t, txs[..|txs| - 1]);
    }
  }

  /**
   After a block that broke off, the cache still agrees with the database exactly when the very first transaction was
   the failing one: any transaction before it has left at least a nonce in the cache that the database does not have.
   */
  lemma AbortedBlockCoherentIff(pre: Hash -> Code, view: Tables, trie: Tables, txs: seq<Tx>)
    requires SameReads(view, trie) && CountsNonces(txs) && RunTxs(pre, view, txs).aborted
    ensures txs != []
    ensures SameReads(OverlayAll(pre, view, RunTxs(pre, view, txs).changes), trie) <==> Run(txs[0], trie, []) == None
  {
    NothingCommittedIff(pre, view, txs);
    RunDependsOnReads(txs[0], view, trie, []);
    CommittedShowsInNonces(pre, view, txs);
    var over := OverlayAll(pre, view, RunTxs(pre, view, txs).changes);
    if SomeNonceAbove(over, view) {
      var a :| NonceAt(over, a) > NonceAt(view, a);
      assert AccountAt(over, a) != AccountAt(trie, a);
    }
  }

  /** The block ran up to a transaction that failed, for whatever reason, and committed the changes before it. */
  ghost predicate BrokeOff(pre: Hash -> Code, view: Tables, txs: seq<Tx>, committed: seq<Changes>) {
    |committed| < |txs| && RunTxs(pre, view, txs[..|committed|]) == Execution(committed, false)
  }

  /** Committed changes show as a raised nonce as long as the database's accounts are the old. */
  lemma CommittedIsAhead(pre: Hash -> Code, view: Tables, trie: Tables, txs: seq<Tx>, k: nat, committed: seq<Changes>,
                         now: Tables, trie': Tables)
    requires SameReads(view, trie) && CountsNonces(txs) && k <= |txs| && committed != []
    requires RunTxs(pre, view, txs[..k]) == Execution(committed, false)
    requires SameReads(now, OverlayAll(pre, view, committed)) && trie'.accounts == trie.accounts
    ensures !SameReads(now, trie')
  {
    assert forall i :: 0 <= i < k ==> txs[..k][i] == txs[i];
    CommittedShowsInNonces(pre, view, txs[..k]);
    var a :| NonceAt(OverlayAll(pre, view, committed), a) > NonceAt(view, a);
    assert AccountAt(now, a) == AccountAt(OverlayAll(pre, view, committed), a);
    assert AccountAt(view, a) == AccountAt(trie, a);
    assert AccountAt(trie', a) == AccountAt(trie, a);
    assert AccountAt(now, a) != AccountAt(trie', a);
  }

  /**
   Whatever the failure was, the database's own or the EVM's, as long as the database's accounts and slots are the old:
   the cache agrees with it exactly when nothing had been committed to the cache.
   */
  lemma FailedBlockCoherentIff(pre: Hash -> Code, view: Tables, trie: Tables, txs: seq<Tx>, k: nat,
                               committed: seq<Changes>, now: Tables, trie': Tables)
    requires k <= |txs| && RunTxs(pre, view, txs[..k]) == Execution(committed, false)
    requires SameReads(now, OverlayAll(pre, view, committed))
    requires SameState(trie, trie') && (committed == [] ==> trie' == trie)
    ensures SameReads(view, trie) && CountsNonces(txs) ==> (SameReads(now, trie') <==> committed == [])
  {
    if SameReads(view, trie) && CountsNonces(txs) && committed != [] {
      CommittedIsAhead(pre, view, trie, txs, k, committed, now, trie');
    }
  }

  lemma NothingHalfCommitted(pre: Hash -> Code, was: Tables, now: Tables, chs: seq<Changes>)
    requires HalfCommitted(pre, was, now, chs)
    ensures chs == [] ==> now == was
  {
    ApplyNothing(pre, was);
    forall n: nat, done: set<Address> | n <= |chs| ensures chs == [] ==> CodeSoFar(pre, was, chs, n, done) == was.code {
      assert chs == [] ==> chs[..n] == [];
    }
  }

  lemma {:induction false} OneChangeSetEach(pre: Hash -> Code, t: Tables, txs: seq<Tx>)
    ensures !RunTxs(pre, t, txs).aborted ==> |RunTxs(pre, t, txs).changes| == |txs|
  {
    if txs != [] {
      OneChangeSetEach(pre, t, txs[..|txs| - 1]);
    }
  }

  /** What a completed block means. `survives` says that everything cached survived the block. */
  ghost predicate Succeeded(pre: Hash -> Code, view: Tables, trie: Tables, txs: seq<Tx>, chs: seq<Changes>,
                            now: Tables, trie': Tables, survives: bool) {
    && RunTxs(pre, view, txs) == Execution(chs, false)
    && trie' == ApplyAll(pre, trie, chs)
    && (NoneDestroyedIn(chs) ==> SameReads(now, OverlayAll(pre, view, chs)))
    && (SameReads(view, trie) ==> (SameReads(now, trie') <==> survives))
    && (SameReads(view, trie) && NoneDestroyedIn(chs) ==>
          SameReads(now, trie') && RunUncached(pre, trie, txs) == Execution(chs, false))
  }

  /** What a failed block means: how far it got, what the cache shows, and when the cache is still coherent. */
  ghost predicate BlockFailed(pre: Hash -> Code, view: Tables, trie: Tables, txs: seq<Tx>, chs: seq<Changes>,
                              now: Tables, trie': Tables, survives: bool, faulty: bool) {
    && ((BrokeOff(pre, view, txs, chs) && trie' == trie)
        || (RunTxs(pre, view, txs) == Execution(chs, false) && faulty && HalfCommitted(pre, trie, trie', chs)))
    && (SameState(trie, trie') ==> SameReads(now, OverlayAll(pre, view, chs)))
    && (SameReads(view, trie) && CountsNonces(txs) && SameState(trie, trie') ==> (SameReads(now, trie') <==> chs == []))
    && (RunTxs(pre, view, txs) == Execution(chs, false) ==>
          (SameReads(view, trie) && trie' == ApplyAll(pre, trie, chs) ==> (SameReads(now, trie') <==> survives)))
    && (!faulty ==> trie' == trie && RunTxs(pre, view, txs) == Execution(chs, true))
    && (!faulty && SameReads(view, trie) && CountsNonces(txs) ==>
          txs != [] && (SameReads(now, trie') <==> Run(txs[0], trie, []) == None))
  }

  lemma AfterBreak(pre: Hash -> Code, view: Tables, trie: Tables, txs: seq<Tx>, chs: seq<Changes>,
                   now: Tables, survives: bool, faulty: bool)
    requires BrokeOff(pre, view, txs, chs) && SameReads(now, OverlayAll(pre, view, chs))
    requires !faulty ==> RunTxs(pre, view, txs) == Execution(chs, true)
    ensures BlockFailed(pre, view, trie, txs, chs, now, trie, survives, faulty)
  {
    FailedBlockCoherentIff(pre, view, trie, txs, |chs|, chs, now, trie);
    OneChangeSetEach(pre, view, txs);
    if !faulty && SameReads(view, trie) && CountsNonces(txs) {
      AbortedBlockCoherentIff(pre, view, trie, txs);
    }
  }

  lemma AfterFailedCommit(pre: Hash -> Code, view: Tables, trie: Tables, txs: seq<Tx>, chs: seq<Changes>,
                          now: Tables, trie': Tables, survives: bool)
    requires RunTxs(pre, view, txs) == Execution(chs, false) && HalfCommitted(pre, trie, trie', chs)
    requires SameState(trie, trie') ==> SameReads(now, OverlayAll(pre, view, chs))
    requires SameReads(view, trie) && trie' == ApplyAll(pre, trie, chs) ==> (SameReads(now, trie') <==> survives)
    ensures BlockFailed(pre, view, trie, txs, chs, now, trie', survives, true)
  {
    NothingHalfCommitted(pre, trie, trie', chs);
    if SameState(trie, trie') {
      assert txs[..|txs|] == txs;
      FailedBlockCoherentIff(pre, view, trie, txs, |txs|, chs, now, trie');
    }
  }

  lemma AfterCommit(pre: Hash -> Code, view: Tables, trie: Tables, txs: seq<Tx>, chs: seq<Changes>,
                    now: Tables, survives: bool)
    requires RunTxs(pre, view, txs) == Execution(chs, false)
    requires NoneDestroyedIn(chs) ==> SameReads(now, OverlayAll(pre, view, chs))
    requires SameReads(view, trie) ==> (SameReads(now, ApplyAll(pre, trie, chs)) <==> survives)
    ensures Succeeded(pre, view, trie, txs, chs, now, ApplyAll(pre, trie, chs), survives)
  {
    if NoneDestroyedIn(chs) && SameReads(view, trie) {
      BlockKeepsCoherence(pre, view, trie, txs, chs, now);
    }
  }

  /** A transaction that reads account 1 and writes it back with one more nonce and one more unit of balance. */
  function Paying(): Tx {
    Tx(PayingNext, 2, _ => None)
  }

  function PayingNext(answers: seq<Answer>): Request {
    if answers == [] then ReadAccount(1)
    else if answers[0].AccountAnswer? then Finish(Paid(answers[0].account))
    else Abort
  }

  function Paid(was: Option<TrieAccount>): Changes {
    var info := match was
      case None => AccountInfo(1, 1, KECCAK_EMPTY, None)
      case Some(acc) => AccountInfo(acc.nonce + 1, acc.balance + 1, acc.codeHash, None);
    map[1 := Account(info, map[], false)]
  }

  function Failing(): Tx {
    Tx(_ => Abort, 1, _ => None)
  }

  lemma PayingRuns(t: Tables)
    ensures Run(Paying(), t, []) == Some(Paid(AccountAt(t, 1)))
    ensures RaisesNonce(t, Paid(AccountAt(t, 1)))
  {
    var q := Paying().next([]);
    var answers := [] + [AnswerFrom(t, q)];
    assert answers == [AccountAnswer(AccountAt(t, 1))];
    assert Run(Paying(), t, []) == Run(Paying(), t, answers);
    assert 1 in Paid(AccountAt(t, 1));
  }

  /** Over every store: a block of two transactions, of which the second fails, leaves the cache wrong. */
  lemma AbortedBlockBreaksCoherence(pre: Hash -> Code, t: Tables)
    ensures CountsNonces([Paying(), Failing()])
    ensures RunTxs(pre, t, [Paying(), Failing()]) == Execution([Paid(AccountAt(t, 1))], true)
    ensures !SameReads(OverlayAll(pre, t, [Paid(AccountAt(t, 1))]), t)
  {
    PayingCounts();
    PayThenFail(pre, t);
    PayingRuns(t);
    AbortedBlockCoherentIff(pre, t, t, [Paying(), Failing()]);
  }

  lemma PayingCounts()
    ensures CountsNonces([Paying(), Failing()])
  {
    var txs := [Paying(), Failing()];
    forall i, u: Tables | 0 <= i < |txs| && Run(txs[i], u, []).Some?
      ensures RaisesNonce(u, Run(txs[i], u, []).value)
    {
      PayingRuns(u);
    }
  }

  lemma PayThenFail(pre: Hash -> Code, t: Tables)
    ensures RunTxs(pre, t, [Paying(), Failing()]) == Execution([Paid(AccountAt(t, 1))], true)
  {
    PayingRuns(t);
    SecondFails(pre, t, Paying(), Failing(), Paid(AccountAt(t, 1)));
  }

  lemma SecondFails(pre: Hash -> Code, t: Tables, first: Tx, second: Tx, ch: Changes)
    requires Run(first, t, []) == Some(ch) && forall u: Tables :: Run(second, u, []) == None
    ensures RunTxs(pre, t, [first, second]) == Execution([ch], true)
  {
    assert OverlayAll(pre, t, []) == t;
    assert [first][..0] == [] && RunTxs(pre, t, []) == Execution([], false);
    assert RunTxs(pre, t, [first]) == Execution([ch], false);
    assert [first, second][..1] == [first];
  }

  // ------------------------------------------------------------ block after block

  type Headers = map<nat, (map<Address, TrieAccount>, map<(Address, Slot), Word>)>

  /** The database after the blocks with these change sets. */
  function AfterBlocks(pre: Hash -> Code, t: Tables, outcomes: seq<seq<Changes>>): Tables {
    if outcomes == [] then t
    else ApplyAll(pre, AfterBlocks(pre, t, outcomes[..|outcomes| - 1]), outcomes[|outcomes| - 1])
  }

  /** The header of each block is the state after it; all other headers are as they were. */
  ghost predicate HeadersFollow(pre: Hash -> Code, t: Tables, first: nat, outcomes: seq<seq<Changes>>,
                                was: Headers, now: Headers) {
    && (forall n :: SameElsewhere(first, |outcomes|, was, now, n))
    && (forall i :: 0 <= i < |outcomes| ==> HeaderIs(pre, t, first, outcomes, now, i))
  }

  predicate SameElsewhere(first: nat, count: nat, was: Headers, now: Headers, n: nat) {
    n < first || n >= first + count ==> (n in now <==> n in was) && (n in was ==> now[n] == was[n])
  }

  ghost predicate HeaderIs(pre: Hash -> Code, t: Tables, first: nat, outcomes: seq<seq<Changes>>, now: Headers, i: nat)
    requires i < |outcomes|
  {
    var after := AfterBlocks(pre, t, outcomes[..i + 1]);
    first + i in now && now[first + i] == (after.accounts, after.storage)
  }

  lemma OneMoreHeader(pre: Hash -> Code, t: Tables, first: nat, outcomes: seq<seq<Changes>>, chs: seq<Changes>,
                      was: Headers, before: Headers, after: Tables)
    requires HeadersFollow(pre, t, first, outcomes, was, before)
    requires after == AfterBlocks(pre, t, outcomes + [chs])
    ensures HeadersFollow(pre, t, first, outcomes + [chs], was,
                          before[first + |outcomes| := (after.accounts, after.storage)])
  {
    var more := outcomes + [chs];
    var now := before[first + |outcomes| := (after.accounts, after.storage)];
    forall n ensures SameElsewhere(first, |more|, was, now, n) {
      assert SameElsewhere(first, |outcomes|, was, before, n);
    }
    forall i | 0 <= i < |more| ensures HeaderIs(pre, t, first, more, now, i) {
      HeaderStays(pre, t, first, outcomes, chs, before, after, i);
    }
  }

  lemma HeaderStays(pre: Hash -> Code, t: Tables, first: nat, outcomes: seq<seq<Changes>>, chs: seq<Changes>,
                    before: Headers, after: Tables, i: nat)
    requires i <= |outcomes| && after == AfterBlocks(pre, t, outcomes + [chs])
    requires i < |outcomes| ==> HeaderIs(pre, t, first, outcomes, before, i)
    ensures HeaderIs(pre, t, first, outcomes + [chs], before[first + |outcomes| := (after.accounts, after.storage)], i)
  {
    var more := outcomes + [chs];
    if i < |outcomes| {
      assert more[..i + 1] == outcomes[..i + 1];
    } else {
      assert more[..i + 1] == more;
    }
  }

  lemma AfterBlocksSnoc(pre: Hash -> Code, t: Tables, outcomes: seq<seq<Changes>>, chs: seq<Changes>)
    ensures AfterBlocks(pre, t, outcomes + [chs]) == ApplyAll(pre, AfterBlocks(pre, t, outcomes), chs)
  {
    assert (outcomes + [chs])[..|outcomes|] == outcomes;
  }

  predicate NoBlockDestroys(outcomes: seq<seq<Changes>>) {
    forall i :: 0 <= i < |outcomes| ==> NoneDestroyedIn(outcomes[i])
  }

  /** Every block has the result of uncached execution over the state that the blocks before it left. */
  ghost predicate AllUncached(pre: Hash -> Code, t: Tables, blocks: seq<seq<Tx>>, outcomes: seq<seq<Changes>>)
    requires |blocks| == |outcomes|
  {
    forall i :: 0 <= i < |blocks| ==>
      RunUncached(pre, AfterBlocks(pre, t, outcomes[..i]), blocks[i]) == Execution(outcomes[i], false)
  }

  lemma OneMoreUncached(pre: Hash -> Code, t: Tables, blocks: seq<seq<Tx>>, outcomes: seq<seq<Changes>>,
                        chs: seq<Changes>)
    requires |outcomes| < |blocks|
    ensures NoBlockDestroys(outcomes + [chs]) <==> NoBlockDestroys(outcomes) && NoneDestroyedIn(chs)
    ensures var n := |outcomes|;
      AllUncached(pre, t, blocks[..n], outcomes)
      && RunUncached(pre, AfterBlocks(pre, t, outcomes), blocks[n]) == Execution(chs, false)
      ==> AllUncached(pre, t, blocks[..n + 1], outcomes + [chs])
  {
    var n, more := |outcomes|, outcomes + [chs];
    assert more[n] == chs && forall i :: 0 <= i < n ==> more[i] == outcomes[i];
    assert more[..n] == outcomes && forall i :: 0 <= i < n ==> more[..i] == outcomes[..i];
  }

  /** What a run of blocks goes by: the database, its headers, and the view through the cache. */
  datatype Standing = Standing(tables: Tables, headers: Headers, view: Tables) {
    ghost predicate Coherent() {
      SameReads(view, tables)
    }
  }

  /** Where a run of consecutive blocks stands that began at `start`. */
  ghost predicate BlocksDone(pre: Hash -> Code, start: Standing, first: nat, blocks: seq<seq<Tx>>,
                             outcomes: seq<seq<Changes>>, now: Standing) {
    && |outcomes| <= |blocks|
    && HeadersFollow(pre, start.tables, first, outcomes, start.headers, now.headers)
    && now.tables == AfterBlocks(pre, start.tables, outcomes)
    && (start.Coherent() && NoBlockDestroys(outcomes) ==>
          AllUncached(pre, start.tables, blocks[..|outcomes|], outcomes) && now.Coherent())
  }

  /** What one executed block does: to the database, to its header and, on a coherent cache, which results it has. */
  ghost predicate BlockTook(pre: Hash -> Code, number: nat, txs: seq<Tx>, chs: seq<Changes>,
                            was: Standing, now: Standing) {
    && now.tables == ApplyAll(pre, was.tables, chs)
    && now.headers == was.headers[number := (now.tables.accounts, now.tables.storage)]
    && (was.Coherent() && NoneDestroyedIn(chs) ==>
          now.Coherent() && RunUncached(pre, was.tables, txs) == Execution(chs, false))
  }

  lemma OneMoreBlock(pre: Hash -> Code, start: Standing, first: nat, blocks: seq<seq<Tx>>,
                     outcomes: seq<seq<Changes>>, was: Standing, chs: seq<Changes>, now: Standing)
    requires BlocksDone(pre, start, first, blocks, outcomes, was) && |outcomes| < |blocks|
    requires BlockTook(pre, first + |outcomes|, blocks[|outcomes|], chs, was, now)
    ensures BlocksDone(pre, start, first, blocks, outcomes + [chs], now)
  {
    AfterBlocksSnoc(pre, start.tables, outcomes, chs);
    OneMoreHeader(pre, start.tables, first, outcomes, chs, start.headers, was.headers, now.tables);
    OneMoreUncached(pre, start.tables, blocks, outcomes, chs);
  }

  /** Block after block, from one standing to the next. */
  ghost predicate BlocksTook(pre: Hash -> Code, first: nat, blocks: seq<seq<Tx>>, outcomes: seq<seq<Changes>>,
                             line: seq<Standing>) {
    && |line| == |outcomes| + 1 <= |blocks| + 1
    && (outcomes == [] ||
        var n := |outcomes| - 1;
        && BlocksTook(pre, first, blocks, outcomes[..n], line[..n + 1])
        && BlockTook(pre, first + n, blocks[n], outcomes[n], line[n], line[n + 1]))
  }

  lemma OneMoreTook(pre: Hash -> Code, first: nat, blocks: seq<seq<Tx>>, outcomes: seq<seq<Changes>>,
                    line: seq<Standing>, chs: seq<Changes>, now: Standing)
    requires BlocksTook(pre, first, blocks, outcomes, line) && |outcomes| < |blocks|
    requires BlockTook(pre, first + |outcomes|, blocks[|outcomes|], chs, line[|outcomes|], now)
    ensures BlocksTook(pre, first, blocks, outcomes + [chs], line + [now])
  {
    var n, more, longer := |outcomes|, outcomes + [chs], line + [now];
    assert more[..n] == outcomes && longer[..n + 1] == line;
    assert more[n] == chs && longer[n] == line[n] && longer[n + 1] == now;
  }

  lemma {:induction false} TookMeansDone(pre: Hash -> Code, first: nat, blocks: seq<seq<Tx>>,
                                         outcomes: seq<seq<Changes>>, line: seq<Standing>)
    requires BlocksTook(pre, first, blocks, outcomes, line)
    ensures BlocksDone(pre, line[0], first, blocks, outcomes, line[|outcomes|])
  {
    if outcomes != [] {
      var n := |outcomes| - 1;
      assert outcomes == outcomes[..n] + [outcomes[n]];
      assert line[..n + 1][0] == line[0] && line[..n + 1][n] == line[n];
      TookMeansDone(pre, first, blocks, outcomes[..n], line[..n + 1]);
      OneMoreBlock(pre, line[0], first, blocks, outcomes[..n], line[n], outcomes[n], line[n + 1]);
    }
  }

  ghost predicate AllBlocksHonest(pre: Hash -> Code, blocks: seq<seq<Tx>>) {
    forall i :: 0 <= i < |blocks| ==> AllHonest(pre, blocks[i])
  }

  class BlockExecutor {
    const db: CachedDatabase

    constructor (db: CachedDatabase)
      ensures this.db == db
    {
      this.db := db;
    }

    ghost predicate Grown(accounts: set<Address>, storage: set<(Address, Slot)>, code: set<Hash>)
      reads db
    {
      accounts <= db.accounts.Keys && storage <= db.storage.Keys && code <= db.code.Keys
    }

    method Answer(q: Request) returns (r: Result<Answer, ()>)
      requires db.Valid() && (q.ReadAccount? || q.ReadSlot? || q.ReadCode?)
      modifies db
      ensures db.Valid() && SameReads(db.View(), old(db.View()))
      ensures r.Ok? ==> r.value == AnswerFrom(old(db.View()), q)
      ensures r.Err? ==> db.faulty
      ensures Grown(old(db.accounts.Keys), old(db.storage.Keys), old(db.code.Keys))
    {
      match q
      case ReadAccount(a) =>
        var info := db.BasicRef(a);
        if info.Ok? {
          return Ok(AccountAnswer(if info.value.Some? then Some(info.value.value.Core()) else None));
        }
        return Err(());
      case ReadSlot(a, s) =>
        var word := db.StorageRef(a, s);
        return if word.Ok? then Ok(WordAnswer(word.value)) else Err(());
      case ReadCode(h) =>
        var code := db.CodeByHashRef(h);
        return if code.Ok? then Ok(CodeAnswer(code.value)) else Err(());
    }

    /** Runs the program read by read through the cache; its changes are not committed here. */
    method Replay(tx: Tx) returns (r: Result<Changes, ()>)
      requires db.Valid()
      modifies db
      ensures db.Valid() && SameReads(db.View(), old(db.View()))
      ensures r.Ok? ==> Run(tx, old(db.View()), []) == Some(r.value)
      ensures r.Ok? && Honest(db.inner.pre, tx) ==> HashedChanges(db.inner.pre, r.value)
      ensures r.Err? ==> db.faulty || Run(tx, old(db.View()), []) == None
      ensures Grown(old(db.accounts.Keys), old(db.storage.Keys), old(db.code.Keys))
    {
      var answers: seq<Answer> := [];
      while |answers| < tx.gas
        invariant db.Valid() && SameReads(db.View(), old(db.View()))
        invariant Run(tx, old(db.View()), answers) == Run(tx, old(db.View()), [])
        invariant Grown(old(db.accounts.Keys), old(db.storage.Keys), old(db.code.Keys))
        decreases SaturatingSub(tx.gas, |answers|)
      {
        var q := tx.next(answers);
        if q.Finish? {
          return Ok(q.changes);
        } else if q.Abort? {
          return Err(());
        }
        assert AnswerFrom(db.View(), q) == AnswerFrom(old(db.View()), q);
        var answer := Answer(q);
        if answer.Err? {
          return Err(());
        }
        answers := answers + [answer.value];
      }
      var last := tx.outOfGas(answers);
      return if last.Some? then Ok(last.value) else Err(());
    }

    method ExecuteTx(tx: Tx) returns (r: Result<Changes, ()>)
      requires db.Valid() && Honest(db.inner.pre, tx)
      modifies db
      ensures db.Valid()
      ensures r.Ok? ==>
        && Run(tx, old(db.View()), []) == Some(r.value)
        && SameReads(db.View(), Overlay(db.inner.pre, old(db.View()), r.value))
        && HashedChanges(db.inner.pre, r.value) && Covers(db.accounts, db.storage, db.code, r.value)
      ensures r.Err? ==> (db.faulty || Run(tx, old(db.View()), []) == None) && SameReads(db.View(), old(db.View()))
      ensures Grown(old(db.accounts.Keys), old(db.storage.Keys), old(db.code.Keys))
    {
      r := Replay(tx);
      if r.Ok? {
        ApplyKeepsSameReads(db.inner.pre, db.View(), old(db.View()), Undestroyed(r.value));
        db.Commit(r.value);
      }
    }

    /** Where the block stands after its first `i` transactions, seen from the view it began with. */
    ghost predicate Reached(start: Tables, txs: seq<Tx>, i: nat, results: seq<Changes>)
      reads db, db.inner
      requires i <= |txs|
    {
      && SameReads(db.View(), OverlayAll(db.inner.pre, start, results))
      && RunTxs(db.inner.pre, start, txs[..i]) == Execution(results, false)
      && AllCached(db.inner.pre, db.accounts, db.storage, db.code, results)
    }

    /** Everything in the cache survived a block that began with database `trie`. */
    ghost predicate Survives(trie: Tables, chs: seq<Changes>)
      reads db
    {
      CacheSurvives(db.inner.pre, trie, chs, db.accounts.Keys, db.storage.Keys, db.code.Keys)
    }

    method ExecuteNext(ghost start: Tables, txs: seq<Tx>, i: nat, ghost results: seq<Changes>)
      returns (r: Result<Changes, ()>)
      requires i < |txs| && db.Valid() && AllHonest(db.inner.pre, txs) && Reached(start, txs, i, results)
      modifies db
      ensures db.Valid()
      ensures r.Ok? ==> Reached(start, txs, i + 1, results + [r.value])
      ensures r.Err? ==> SameReads(db.View(), OverlayAll(db.inner.pre, start, results))
      ensures r.Err? && !db.faulty ==> RunTxs(db.inner.pre, start, txs) == Execution(results, true)
    {
      ghost var was := db.View();
      ghost var accounts, storage, code := db.accounts, db.storage, db.code;
      r := ExecuteTx(txs[i]);
      if r.Ok? {
        StillCached(db.inner.pre, accounts, storage, code, db.accounts, db.storage, db.code, results);
        OneMoreTx(db.inner.pre, start, txs, i, results, was, db.View(), r.value);
      } else if !db.faulty {
        OneTxFails(db.inner.pre, start, txs, i, results, was);
      }
    }

    /** The loop over a block's transactions; each is committed to the cache before the next one runs. */
    method ExecuteTxs(txs: seq<Tx>) returns (ok: bool, results: seq<Changes>)
      requires db.Valid() && AllHonest(db.inner.pre, txs)
      modifies db
      ensures db.Valid() && SameReads(db.View(), OverlayAll(db.inner.pre, old(db.View()), results))
      ensures ok ==> Reached(old(db.View()), txs, |txs|, results)
      ensures !ok ==> BrokeOff(db.inner.pre, old(db.View()), txs, results)
      ensures !ok && !db.faulty ==> RunTxs(db.inner.pre, old(db.View()), txs) == Execution(results, true)
    {
      results := [];
      ghost var start := db.View();
      for i := 0 to |txs|
        invariant |results| == i && db.Valid() && Reached(start, txs, i, results)
      {
        var one := ExecuteNext(start, txs, i, results);
        if one.Err? {
          return false, results;
        }
        results := results + [one.value];
      }
      ok := true;
    }

    /**
     Executes a block. On success every transaction had the result it has over the old view, the database holds
     exactly the block's changes, and if nothing was destroyed the cache shows them too; a coherent cache stays
     coherent exactly when everything in it survived the block, and without self-destructs every result is that of
     uncached execution. A block that failed at a transaction, through the EVM or a database read, has reached the cache
     up to that transaction and the database not at all; one whose commit failed has reached the cache as a whole. As
     long as the database's accounts and slots are the old, a coherent cache then stays so exactly when nothing was
     committed to it; and when a failed commit lacks only the header, exactly when everything in it survived.
     */
    method ExecuteBlock(number: nat, txs: seq<Tx>) returns (r: Result<seq<Changes>, ()>, ghost committed: seq<Changes>)
      requires db.Valid() && AllHonest(db.inner.pre, txs)
      modifies db, db.inner
      ensures db.Valid()
      ensures r.Ok? ==> committed == r.value
      ensures r.Ok? ==> db.inner.headers == old(db.inner.headers)[number := (db.inner.accounts, db.inner.storage)]
      ensures r.Err? ==> db.inner.headers == old(db.inner.headers)
      ensures r.Ok? ==>
        Succeeded(db.inner.pre, old(db.View()), old(db.inner.Contents()), txs, r.value,
                  db.View(), db.inner.Contents(), Survives(old(db.inner.Contents()), r.value))
      ensures r.Err? ==>
        BlockFailed(db.inner.pre, old(db.View()), old(db.inner.Contents()), txs, committed,
                    db.View(), db.inner.Contents(), Survives(old(db.inner.Contents()), committed), db.faulty)
    {
      ghost var pre, view, trie := db.inner.pre, db.View(), db.inner.Contents();
      var ok, results := ExecuteTxs(txs);
      committed := results;
      if !ok {
        AfterBreak(pre, view, trie, txs, results, db.View(), Survives(trie, results), db.faulty);
        return Err(()), committed;
      }
      assert txs[..|txs|] == txs;
      if SameReads(view, trie) {
        CoherentAfterCommitIff(pre, db.accounts, db.storage, db.code, view, trie, results);
      }
      ok := db.CommitBlock(number, results);
      if !ok {
        AfterFailedCommit(pre, view, trie, txs, results, db.View(), db.inner.Contents(), Survives(trie, results));
        return Err(()), committed;
      }
      AfterCommit(pre, view, trie, txs, results, db.View(), Survives(trie, results));
      r := Ok(results);
    }

    ghost function Now(): Standing
      reads db, db.inner
    {
      Standing(db.inner.Contents(), db.inner.headers, db.View())
    }

    /** What a run of blocks needs of each. */
    method ExecuteOne(number: nat, txs: seq<Tx>, ghost was: Standing)
      returns (ok: bool, ghost chs: seq<Changes>, ghost now: Standing)
      requires was == Now() && db.Valid() && AllHonest(db.inner.pre, txs)
      modifies db, db.inner
      ensures now == Now() && db.Valid()
      ensures ok ==> BlockTook(db.inner.pre, number, txs, chs, was, now)
      ensures !ok ==> now.headers == was.headers
    {
      var r;
      r, chs := ExecuteBlock(number, txs);
      ok := r.Ok?;
      now := Now();
    }

    method ExecuteNextBlock(first: nat, blocks: seq<seq<Tx>>, i: nat, ghost outcomes: seq<seq<Changes>>,
                            ghost line: seq<Standing>)
      returns (ok: bool, ghost outcomes': seq<seq<Changes>>, ghost line': seq<Standing>)
      requires i == |outcomes| < |blocks| && BlocksTook(db.inner.pre, first, blocks, outcomes, line)
      requires line[i] == Now() && db.Valid() && AllHonest(db.inner.pre, blocks[i])
      modifies db, db.inner
      ensures db.Valid() && BlocksTook(db.inner.pre, first, blocks, outcomes', line') && line'[0] == line[0]
      ensures ok ==> |outcomes'| == i + 1 && line'[i + 1] == Now()
      ensures !ok ==> |outcomes'| == i && line'[i].headers == db.inner.headers
    {
      ghost var chs, now;
      ok, chs, now := ExecuteOne(first + i, blocks[i], line[i]);
      outcomes', line' := outcomes, line;
      if ok {
        OneMoreTook(db.inner.pre, first, blocks, outcomes, line, chs, now);
        outcomes', line' := outcomes + [chs], line + [now];
      }
    }

    /** Executes consecutive blocks until one fails; `line` is where things stood before the first and after each. */
    method ExecuteInTurn(first: nat, blocks: seq<seq<Tx>>, ghost start: Standing)
      returns (ok: bool, ghost outcomes: seq<seq<Changes>>, ghost line: seq<Standing>)
      requires start == Now() && db.Valid() && AllBlocksHonest(db.inner.pre, blocks)
      modifies db, db.inner
      ensures db.Valid() && (ok <==> |outcomes| == |blocks|)
      ensures BlocksTook(db.inner.pre, first, blocks, outcomes, line) && line[0] == start
      ensures line[|outcomes|].headers == db.inner.headers && (ok ==> line[|outcomes|] == Now())
    {
      outcomes, line := [], [start];
      for i := 0 to |blocks|
        invariant db.Valid() && |outcomes| == i
        invariant BlocksTook(db.inner.pre, first, blocks, outcomes, line)
        invariant line[0] == start && line[i] == Now()
      {
        ok, outcomes, line := ExecuteNextBlock(first, blocks, i, outcomes, line);
        if !ok {
          return;
        }
      }
      ok := true;
    }

    /**
     Executes consecutive blocks until one fails. Each executed block's header is kept under its own number and stands
     for the state after just that block; and on a coherent cache, as long as nothing is destroyed, every block has the
     result it has when executed without a cache over the state the block before it left.
     */
    method ExecuteBlocks(first: nat, blocks: seq<seq<Tx>>) returns (ok: bool, ghost outcomes: seq<seq<Changes>>)
      requires db.Valid() && AllBlocksHonest(db.inner.pre, blocks)
      modifies db, db.inner
      ensures db.Valid() && |outcomes| <= |blocks| && (ok <==> |outcomes| == |blocks|)
      ensures HeadersFollow(db.inner.pre, old(db.inner.Contents()), first, outcomes,
                            old(db.inner.headers), db.inner.headers)
      ensures ok ==> db.inner.Contents() == AfterBlocks(db.inner.pre, old(db.inner.Contents()), outcomes)
      ensures old(db.Coherent()) && NoBlockDestroys(outcomes) ==>
        && AllUncached(db.inner.pre, old(db.inner.Contents()), blocks[..|outcomes|], outcomes)
        && (ok ==> db.Coherent())
    {
      ghost var line;
      ok, outcomes, line := ExecuteInTurn(first, blocks, Now());
      TookMeansDone(db.inner.pre, first, blocks, outcomes, line);
    }
  }
}
