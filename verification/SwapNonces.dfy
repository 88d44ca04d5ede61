/** Which nonce a new payment takes: the least one above the account's and above everything still in the mempool. */
module SwapNonces {
  import opened Collections
  import opened Schedule
  import opened SwapModel
  import opened SwapHonest

  /** Above everything the account has used and everything that waits, and right after one of them. */
  ghost predicate LeastFree(w: World, s: nat) {
    && s > |w.account| && (forall x :: x in w.pool ==> s > SeqNo(x))
    && (s == |w.account| + 1 || exists x :: x in w.pool && s == SeqNo(x) + 1)
  }

  predicate NoncesDistinct(pool: seq<Tx>) { forall i, j :: 0 <= i < j < |pool| ==> SeqNo(pool[i]) != SeqNo(pool[j]) }

  lemma {:induction false} PendingIsHighest(pool: seq<Tx>)
    ensures forall x :: x in pool ==> SeqNo(x) <= PendingNonce(pool)
    ensures PendingNonce(pool) == 0 || exists x :: x in pool && SeqNo(x) == PendingNonce(pool)
  {
    if pool != [] {
      PendingIsHighest(pool[1..]);
      assert pool == [pool[0]] + pool[1..];
      if PendingNonce(pool[1..]) != 0 {
        var x :| x in pool[1..] && SeqNo(x) == PendingNonce(pool[1..]);
        assert x in pool;
      }
      assert pool[0] in pool;
    }
  }

  /** The next nonce is the least free one, and there is only one such. */
  lemma NextSeqIsLeastFree(w: World, s: nat)
    ensures LeastFree(w, s) <==> s == NextSeq(w)
  {
    PendingIsHighest(w.pool);
    if PendingNonce(w.pool) > |w.account| {
      var x :| x in w.pool && SeqNo(x) == PendingNonce(w.pool);
      assert x in w.pool && NextSeq(w) == SeqNo(x) + 1;
    }
  }

  lemma OneMoreNonce(w: World, e: Envelope)
    requires NoncesDistinct(w.pool) && LeastFree(w, e.seqNo)
    ensures NoncesDistinct(w.pool + [Pay(e)])
  {
    var longer := w.pool + [Pay(e)];
    forall i, j | 0 <= i < j < |longer|
      ensures SeqNo(longer[i]) != SeqNo(longer[j])
    {
      assert longer[i] in w.pool;
    }
  }

  /** What building leaves in the mempool and among the released, killed after any number of effects. */
  ghost predicate TakesLeastFree(w: World, v: World) {
    && (forall e :: e in v.released && e !in w.released ==> LeastFree(w, e.seqNo))
    && (v.pool == w.pool || exists e: Envelope :: LeastFree(w, e.seqNo) && v.pool == w.pool + [Pay(e)])
    && (NoncesDistinct(w.pool) ==> NoncesDistinct(v.pool))
  }

  /** Building releases one payment, at the least free nonce; where no two waiting payments share a nonce, none do afterwards. */
  lemma BuildTakesLeastFree(t: Terms, w: World, n: nat, row: Row, a: Answers, k: nat)
    requires IsStep(t, n) && k <= |BuildAndSend(t, w, n, row, a)|
    ensures TakesLeastFree(w, ExecAll(w, BuildAndSend(t, w, n, row, a)[..k]))
  {
    var e, fs := FreshEnvelope(t, w, n), BuildAndSend(t, w, n, row, a);
    NextSeqIsLeastFree(w, e.seqNo);
    if NoncesDistinct(w.pool) {
      OneMoreNonce(w, e);
    }
    hide LeastFree, NextSeq, NoncesDistinct;
    if k == 0 {
      assert fs[..k] == [];
    } else if k == 1 {
      assert fs[..k] == [fs[0]];
      ExecOne(w, fs[0]);
    } else {
      ExecTwo(w, fs[0], fs[1]);
      var v := Exec(Exec(w, fs[0]), fs[1]);
      if k == 2 {
        assert fs[..k] == [fs[0]] + [fs[1]];
      } else {
        assert fs[..k] == ([fs[0]] + [fs[1]]) + [fs[2]];
        ExecAllAppend(w, [fs[0]] + [fs[1]], [fs[2]]);
        ExecOne(v, fs[2]);
      }
    }
  }
}
