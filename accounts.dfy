/**
 * The account aggregate. An account stores no balance: its balance is the fold
 * of its entries, credits counted positive and debits negative.
 */
module Accounts {
  import opened Entries

  /** The signed contribution of one entry to its account's balance. */
  function Signed(e: Entry): int
  {
    if e.txType == Credit then e.amount else -e.amount
  }

  /** The fold over a list of entries that gives an account's current balance. */
  function Sum(entries: seq<Entry>): int
  {
    if entries == [] then 0 else Signed(entries[0]) + Sum(entries[1..])
  }

  /** Independent reference: the total amount of the entries of one type. */
  function Total(entries: seq<Entry>, t: TxType): int
  {
    if entries == [] then 0
    else (if entries[0].txType == t then entries[0].amount else 0) + Total(entries[1..], t)
  }

  /**
   * The entries of the log that belong to one account: each entry carrying the
   * account's id, as many times as it occurs in the log.
   */
  function EntriesOf(log: seq<Entry>, accountId: int): (r: seq<Entry>)
    ensures |r| <= |log|
    ensures forall e :: e in r <==> e in log && e.accountId == accountId
  {
    if log == [] then []
    else if log[0].accountId == accountId then [log[0]] + EntriesOf(log[1..], accountId)
    else EntriesOf(log[1..], accountId)
  }

  /** Each entry of the account occurs in its selection exactly as often as in the log. */
  lemma {:induction false} EntriesOfCounts(log: seq<Entry>, accountId: int)
    ensures forall e :: multiset(EntriesOf(log, accountId))[e]
                        == if e.accountId == accountId then multiset(log)[e] else 0
  {
    if log != [] {
      EntriesOfCounts(log[1..], accountId);
      assert log == [log[0]] + log[1..];
      assert multiset(log) == multiset{log[0]} + multiset(log[1..]);
      if log[0].accountId == accountId {
        assert multiset(EntriesOf(log, accountId))
            == multiset{log[0]} + multiset(EntriesOf(log[1..], accountId));
      }
    }
  }

  /** The current balance of an account, read from the whole log. */
  function Balance(log: seq<Entry>, accountId: int): int
  {
    Sum(EntriesOf(log, accountId))
  }

  /** Balance is the sum of the credits minus the sum of the debits. */
  lemma {:induction false} SumIsCreditsMinusDebits(entries: seq<Entry>)
    ensures Sum(entries) == Total(entries, Credit) - Total(entries, Debit)
  {
    if entries != [] {
      SumIsCreditsMinusDebits(entries[1..]);
    }
  }

  /** The fold is additive over concatenation. */
  lemma {:induction false} SumAppend(xs: seq<Entry>, ys: seq<Entry>)
    ensures Sum(xs + ys) == Sum(xs) + Sum(ys)
  {
    if xs == [] {
      assert xs + ys == ys;
    } else {
      assert (xs + ys)[1..] == xs[1..] + ys;
      SumAppend(xs[1..], ys);
    }
  }

  /** Taking one entry out of a list takes its signed amount out of the fold. */
  lemma SumRemove(ys: seq<Entry>, i: nat)
    requires i < |ys|
    ensures Sum(ys) == Signed(ys[i]) + Sum(ys[..i] + ys[i + 1..])
  {
    var pre, mid, post := ys[..i], [ys[i]] + ys[i + 1..], ys[i + 1..];
    assert ys == pre + mid;
    assert mid[1..] == post;
    assert Sum(mid) == Signed(ys[i]) + Sum(post);
    SumAppend(pre, mid);
    SumAppend(pre, post);
  }

  /** The fold does not depend on the order of the entries. */
  lemma {:induction false} SumPermutation(xs: seq<Entry>, ys: seq<Entry>)
    requires multiset(xs) == multiset(ys)
    ensures Sum(xs) == Sum(ys)
  {
    if xs != [] {
      var e := xs[0];
      assert e in multiset(ys);
      var i :| 0 <= i < |ys| && ys[i] == e;
      var rest := ys[..i] + ys[i + 1..];
      RemovePreservesRest(xs, ys, i);
      SumPermutation(xs[1..], rest);
      SumRemove(ys, i);
    }
  }

  /** Removing the same entry from two permutations of each other leaves permutations. */
  lemma RemovePreservesRest(xs: seq<Entry>, ys: seq<Entry>, i: nat)
    requires xs != [] && i < |ys| && ys[i] == xs[0]
    requires multiset(xs) == multiset(ys)
    ensures multiset(xs[1..]) == multiset(ys[..i] + ys[i + 1..])
  {
    var e, rest := xs[0], ys[..i] + ys[i + 1..];
    assert xs == [e] + xs[1..];
    assert multiset(xs) == multiset{e} + multiset(xs[1..]);
    assert ys == ys[..i] + [e] + ys[i + 1..];
    assert multiset(ys) == multiset(ys[..i]) + multiset{e} + multiset(ys[i + 1..]);
    assert multiset(rest) == multiset(ys[..i]) + multiset(ys[i + 1..]);
    MultisetCancel(e, multiset(xs[1..]), multiset(rest));
  }

  lemma MultisetCancel(e: Entry, a: multiset<Entry>, b: multiset<Entry>)
    requires multiset{e} + a == multiset{e} + b
    ensures a == b
  {
    assert forall x :: a[x] == (multiset{e} + a)[x] - multiset{e}[x];
    assert forall x :: b[x] == (multiset{e} + b)[x] - multiset{e}[x];
  }

  /**
   * The balance does not depend on the order in which an account's entries are
   * loaded: any list holding the same entries, each as often, folds to it.
   */
  lemma BalanceIgnoresLoadOrder(log: seq<Entry>, accountId: int, loaded: seq<Entry>)
    requires forall e :: multiset(loaded)[e] == if e.accountId == accountId then multiset(log)[e] else 0
    ensures Sum(loaded) == Balance(log, accountId)
  {
    EntriesOfCounts(log, accountId);
    assert multiset(loaded) == multiset(EntriesOf(log, accountId));
    SumPermutation(loaded, EntriesOf(log, accountId));
  }

  /** Only the amount and the type of an entry count; id, description and category do not. */
  lemma {:induction false} SumIgnoresCategory(xs: seq<Entry>, ys: seq<Entry>)
    requires |xs| == |ys|
    requires forall i :: 0 <= i < |xs| ==> xs[i].amount == ys[i].amount && xs[i].txType == ys[i].txType
    ensures Sum(xs) == Sum(ys)
  {
    if xs != [] {
      SumIgnoresCategory(xs[1..], ys[1..]);
    }
  }

  /** Selecting one account's entries distributes over concatenation of logs. */
  lemma {:induction false} EntriesOfAppend(xs: seq<Entry>, ys: seq<Entry>, accountId: int)
    ensures EntriesOf(xs + ys, accountId) == EntriesOf(xs, accountId) + EntriesOf(ys, accountId)
  {
    if xs == [] {
      assert xs + ys == ys;
    } else {
      assert (xs + ys)[1..] == xs[1..] + ys;
      EntriesOfAppend(xs[1..], ys, accountId);
    }
  }

  /** Appending a batch changes every balance by exactly that batch's contribution. */
  lemma BalanceAppend(log: seq<Entry>, batch: seq<Entry>, accountId: int)
    ensures Balance(log + batch, accountId) == Balance(log, accountId) + Balance(batch, accountId)
  {
    EntriesOfAppend(log, batch, accountId);
    SumAppend(EntriesOf(log, accountId), EntriesOf(batch, accountId));
  }

  /** The balance read from a log that starts with `e`. */
  lemma BalanceCons(e: Entry, rest: seq<Entry>, accountId: int)
    ensures Balance([e] + rest, accountId)
         == (if e.accountId == accountId then Signed(e) else 0) + Balance(rest, accountId)
  {
    assert ([e] + rest)[1..] == rest;
    if e.accountId == accountId {
      assert EntriesOf([e] + rest, accountId) == [e] + EntriesOf(rest, accountId);
      assert ([e] + EntriesOf(rest, accountId))[1..] == EntriesOf(rest, accountId);
    }
  }

  /** An account without entries, such as a freshly created one, has balance 0. */
  lemma {:induction false} BalanceWithoutEntries(log: seq<Entry>, accountId: int)
    requires forall e :: e in log ==> e.accountId != accountId
    ensures Balance(log, accountId) == 0
  {
    if log != [] {
      BalanceWithoutEntries(log[1..], accountId);
    }
  }
}
