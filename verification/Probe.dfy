/**
 The view a new transaction is validated against: the confirmed ledger with its sender's pending
 transactions applied, without copying the ledger.
 */
module Probe {
  import opened Collections
  import opened Ledger
  import opened Mempool
  import Assembly

  /** Each transaction's debit succeeds where it stands, and its outputs are positive. */
  predicate Applicable(l: Ledger, txs: seq<Tx>)
    decreases txs
  {
    txs == []
    || (Payable(l, txs[0]) && Applicable(ApplyTx(l, txs[0]), txs[1..]))
  }

  predicate Payable(l: Ledger, t: Tx) {
    && 0 < Spend(t) <= Balance(l, t.sender)
    && forall i :: 0 <= i < |t.outputs| ==> t.outputs[i].amount > 0
  }

  /** A writable view: what it has changed, and the ledger underneath for the rest. A balance of 0 is kept. */
  class Overlay {
    const base: Ledger
    var balances: map<Addr, int>
    var nonces: map<Addr, int>

    function GetBalance(a: Addr): int
      reads this
    {
      if a in balances then balances[a] else Balance(base, a)
    }

    function GetNonce(a: Addr): int
      reads this
    {
      if a in nonces then nonces[a] else Nonce(base, a)
    }

    /** To every reader of balances and nonces this view is that ledger. */
    ghost predicate ReadsAs(l: Ledger)
      reads this
    {
      forall a :: ReadsAt(l, a)
    }

    ghost predicate ReadsAt(l: Ledger, a: Addr)
      reads this
    {
      GetBalance(a) == Balance(l, a) && GetNonce(a) == Nonce(l, a)
    }

    constructor (l: Ledger)
      ensures base == l && ReadsAs(l)
    {
      base, balances, nonces := l, map[], map[];
    }

    method Credit(a: Addr, amount: int, ghost l: Ledger) returns (ok: bool)
      requires ReadsAs(l)
      modifies this
      ensures ok == (amount > 0) && ReadsAs(if ok then Credited(l, a, amount) else l)
    {
      ok := amount > 0;
      assert ReadsAt(l, a);
      if ok {
        balances := balances[a := GetBalance(a) + amount];
        forall x
          ensures ReadsAt(Credited(l, a, amount), x)
        {
          assert old(ReadsAt(l, x));
        }
      }
    }

    method Debit(a: Addr, amount: int, ghost l: Ledger) returns (ok: bool)
      requires ReadsAs(l)
      modifies this
      ensures ok == (0 < amount <= Balance(l, a)) && ReadsAs(if ok then Debited(l, a, amount) else l)
    {
      assert ReadsAt(l, a);
      ok := 0 < amount <= GetBalance(a);
      if ok {
        balances := balances[a := GetBalance(a) - amount];
        forall x
          ensures ReadsAt(Debited(l, a, amount), x)
        {
          assert old(ReadsAt(l, x));
        }
      }
    }

    /** Same readings, before and after, as applying the transaction to a copy of the ledger. */
    method Apply(t: Tx, ghost l: Ledger) returns (ok: bool)
      requires ReadsAs(l)
      modifies this
      ensures ok <==> Payable(l, t)
      ensures ok ==> ReadsAs(ApplyTx(l, t))
    {
      ok := Debit(t.sender, Spend(t), l);
      if !ok {
        return;
      }
      ghost var start := Debited(l, t.sender, Spend(t));
      ghost var at := start;
      var i := 0;
      while i < |t.outputs|
        invariant 0 <= i <= |t.outputs| && ReadsAs(at)
        invariant CreditAll(at, t.outputs[i..]) == CreditAll(start, t.outputs)
        invariant forall j :: 0 <= j < i ==> t.outputs[j].amount > 0
      {
        assert t.outputs[i..][1..] == t.outputs[i + 1..];
        ok := Credit(t.outputs[i].to, t.outputs[i].amount, at);
        if !ok {
          return;
        }
        at := Credited(at, t.outputs[i].to, t.outputs[i].amount);
        i := i + 1;
      }
      assert t.outputs[i..] == [];
      assert at == CreditAll(start, t.outputs);
      label paid:
      nonces := nonces[t.sender := t.nonce];
      forall x
        ensures ReadsAt(ApplyTx(l, t), x)
      {
        assert old@paid(ReadsAt(at, x));
      }
      return true;
    }
  }

  /** A sender's pending transactions, in nonce order. */
  function Pending(held: seq<Tx>, a: Addr): seq<Tx> { Assembly.SortByNonce(Assembly.From(held, a)) }

  method ProbeStateFor(held: seq<Tx>, a: Addr, l: Ledger) returns (ok: bool, probe: Overlay)
    ensures fresh(probe) && probe.base == l
    ensures ok <==> Applicable(l, Pending(held, a))
    ensures ok ==> probe.ReadsAs(ApplyTxs(l, Pending(held, a)))
  {
    probe := new Overlay(l);
    ok := true;
    var pending := Pending(held, a);
    ghost var at := l;
    assert pending[0..] == pending;
    for i := 0 to |pending|
      invariant fresh(probe) && probe.base == l && ok && probe.ReadsAs(at)
      invariant Applicable(at, pending[i..]) == Applicable(l, pending)
      invariant ApplyTxs(at, pending[i..]) == ApplyTxs(l, pending)
    {
      assert pending[i..][1..] == pending[i + 1..];
      ok := probe.Apply(pending[i], at);
      if !ok {
        return;
      }
      at := ApplyTx(at, pending[i]);
    }
    assert pending[|pending|..] == [];
  }

  lemma {:induction false} NonceAfter(l: Ledger, txs: seq<Tx>, a: Addr)
    requires txs != [] && forall t :: t in txs ==> t.sender == a
    ensures Nonce(ApplyTxs(l, txs), a) == txs[|txs| - 1].nonce
    decreases txs
  {
    MintedUnmoved(l, txs[0]);
    assert txs[0] in txs;
    if |txs| > 1 {
      assert txs[1..][|txs[1..]| - 1] == txs[|txs| - 1];
      NonceAfter(ApplyTx(l, txs[0]), txs[1..], a);
    } else {
      assert txs[1..] == [];
    }
  }

  /**
   A second copy of a transaction this node already holds never validates here: the view it is checked
   against has its nonce spent.
   */
  lemma HeldCopyIsRefused(l: Ledger, held: seq<Tx>, t: Tx, copy: Tx, floor: int)
    requires t in held && copy.sender == t.sender && copy.nonce == t.nonce
    ensures !ValidTx(ApplyTxs(l, Pending(held, t.sender)), copy, floor)
  {
    var mine := Assembly.From(held, t.sender);
    var pending := Pending(held, t.sender);
    HeldIsMine(held, t);
    Assembly.SortByNonceBag(mine);
    Assembly.SortByNonceOrders(mine);
    Assembly.FromIsFrom(held, t.sender);
    assert t in multiset(mine);
    assert t in pending;
    forall x | x in pending
      ensures x.sender == t.sender
    {
      assert x in multiset(pending);
      assert x in mine;
    }
    NonceAfter(l, pending, t.sender);
  }

  lemma {:induction false} HeldIsMine(held: seq<Tx>, t: Tx)
    requires t in held
    ensures t in Assembly.From(held, t.sender)
  {
    if held[0] != t {
      assert t in held[1..];
      HeldIsMine(held[1..], t);
    }
  }
}
