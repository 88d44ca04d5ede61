/** Building a block from pending transactions: group by sender, order by nonce, pack greedily by fee rate. */
module Assembly {
  import opened Collections
  import opened Ledger
  import opened Blocks

  // ----- What is packed --------------------------------------------------------------------

  predicate AboveFloor(t: Tx, floor: int) { !(t.board && t.fee < floor) }

  /** A floor of 0 filters nothing. */
  function Filtered(txs: seq<Tx>, floor: int): seq<Tx> {
    if txs == [] then []
    else (if floor == 0 || AboveFloor(txs[0], floor) then [txs[0]] else []) + Filtered(txs[1..], floor)
  }

  /** The filter takes out exactly the board posts under the floor, and none where there is no floor. */
  lemma {:induction false} FilterKeeps(txs: seq<Tx>, floor: int, t: Tx)
    ensures multiset(Filtered(txs, floor))[t] == if floor != 0 && t.board && t.fee < floor then 0 else multiset(txs)[t]
  {
    if txs != [] {
      FilterKeeps(txs[1..], floor, t);
      assert txs == [txs[0]] + txs[1..];
    }
  }

  /** Size inside the block's list: one more byte for the comma when it is not the first. */
  function SizeInBlock(t: Tx, position: nat): nat { t.size + if position > 0 then 1 else 0 }

  function PackedSize(txs: seq<Tx>): nat {
    if txs == [] then 0 else PackedSize(txs[..|txs| - 1]) + SizeInBlock(txs[|txs| - 1], |txs| - 1)
  }

  datatype Pack = Pack(txs: seq<Tx>, running: int)

  /** One sender's transactions in order, up to the first that does not fit. */
  function PackGroup(p: Pack, group: seq<Tx>): Pack
    decreases group
  {
    if group == [] then p
    else
      var size := SizeInBlock(group[0], |p.txs|);
      if p.running + size > BLOCK_SIZE_LIMIT then p
      else PackGroup(Pack(p.txs + [group[0]], p.running + size), group[1..])
  }

  function PackGroups(p: Pack, groups: seq<seq<Tx>>): Pack
    decreases groups
  {
    if groups == [] then p else PackGroups(PackGroup(p, groups[0]), groups[1..])
  }

  /** How many of a group's transactions fit. */
  function Taken(p: Pack, group: seq<Tx>): (k: nat)
    ensures k <= |group|
    decreases group
  {
    if group == [] then 0
    else
      var size := SizeInBlock(group[0], |p.txs|);
      if p.running + size > BLOCK_SIZE_LIMIT then 0
      else 1 + Taken(Pack(p.txs + [group[0]], p.running + size), group[1..])
  }

  lemma {:induction false} GroupPacksPrefix(p: Pack, group: seq<Tx>)
    ensures PackGroup(p, group).txs == p.txs + group[..Taken(p, group)]
    decreases group
  {
    if group != [] {
      var size := SizeInBlock(group[0], |p.txs|);
      if p.running + size <= BLOCK_SIZE_LIMIT {
        var next := Pack(p.txs + [group[0]], p.running + size);
        GroupPacksPrefix(next, group[1..]);
        var k := Taken(p, group);
        assert [group[0]] + group[1..][..k - 1] == group[..k];
        assert p.txs + [group[0]] + group[1..][..k - 1] == p.txs + ([group[0]] + group[1..][..k - 1]);
      }
    }
  }

  lemma {:induction false} GroupKeepsCount(p: Pack, group: seq<Tx>)
    ensures var q := PackGroup(p, group);
            && q.running - p.running == PackedSize(q.txs) - PackedSize(p.txs)
            && (p.running <= BLOCK_SIZE_LIMIT ==> q.running <= BLOCK_SIZE_LIMIT)
    decreases group
  {
    if group != [] {
      var size := SizeInBlock(group[0], |p.txs|);
      if p.running + size <= BLOCK_SIZE_LIMIT {
        var next := Pack(p.txs + [group[0]], p.running + size);
        assert next.txs[..|next.txs| - 1] == p.txs;
        GroupKeepsCount(next, group[1..]);
      }
    }
  }

  lemma {:induction false} GroupsKeepCount(p: Pack, groups: seq<seq<Tx>>)
    ensures var q := PackGroups(p, groups);
            && q.running - p.running == PackedSize(q.txs) - PackedSize(p.txs)
            && (p.running <= BLOCK_SIZE_LIMIT ==> q.running <= BLOCK_SIZE_LIMIT)
    decreases groups
  {
    if groups != [] {
      GroupKeepsCount(p, groups[0]);
      GroupsKeepCount(PackGroup(p, groups[0]), groups[1..]);
    }
  }

  // ----- One sender's transactions in a list ------------------------------------------------------

  function From(txs: seq<Tx>, a: Addr): seq<Tx> {
    if txs == [] then [] else (if txs[0].sender == a then [txs[0]] else []) + From(txs[1..], a)
  }

  lemma {:induction false} FromAppend(x: seq<Tx>, y: seq<Tx>, a: Addr)
    ensures From(x + y, a) == From(x, a) + From(y, a)
  {
    if x == [] {
      assert x + y == y;
    } else {
      var first: seq<Tx> := if x[0].sender == a then [x[0]] else [];
      assert (x + y)[0] == x[0] && (x + y)[1..] == x[1..] + y;
      FromAppend(x[1..], y, a);
      assert From(x + y, a) == first + From(x[1..] + y, a) && From(x, a) == first + From(x[1..], a);
      hide From;
      assert first + (From(x[1..], a) + From(y, a)) == first + From(x[1..], a) + From(y, a);
    }
  }

  lemma {:induction false} FromGroup(group: seq<Tx>, s: Addr, a: Addr)
    requires forall t :: t in group ==> t.sender == s
    ensures From(group, a) == if a == s then group else []
  {
    if group != [] {
      assert forall t :: t in group[1..] ==> t in group;
      FromGroup(group[1..], s, a);
    }
  }

  /** Groups of distinct senders, one sender a group. */
  ghost predicate Grouped(groups: seq<seq<Tx>>) {
    && (forall i :: 0 <= i < |groups| ==> OneSender(groups[i]))
    && forall i, j :: 0 <= i < j < |groups| ==> groups[i][0].sender != groups[j][0].sender
  }

  predicate OneSender(group: seq<Tx>) { group != [] && forall t :: t in group ==> t.sender == group[0].sender }

  lemma GroupedTail(groups: seq<seq<Tx>>)
    requires Grouped(groups) && groups != []
    ensures Grouped(groups[1..]) && OneSender(groups[0])
    ensures forall i :: 0 <= i < |groups[1..]| ==> groups[1..][i][0].sender != groups[0][0].sender
  {
    assert forall i :: 0 <= i < |groups[1..]| ==> groups[1..][i] == groups[i + 1];
  }

  // ----- When the packed list validates ---------------------------------------------------------------

  /** A group's nonces continue the confirmed nonce without a gap. */
  predicate GapFree(l: Ledger, group: seq<Tx>) {
    forall k :: 0 <= k < |group| ==> group[k].nonce == Nonce(l, group[k].sender) + 1 + k
  }

  function GroupSpend(group: seq<Tx>): int {
    if group == [] then 0 else Spend(group[0]) + GroupSpend(group[1..])
  }

  predicate Funded(l: Ledger, group: seq<Tx>) {
    group != [] ==> GroupSpend(group) <= Balance(l, group[0].sender)
  }

  predicate EachStandsAlone(group: seq<Tx>, floor: int) {
    forall t :: t in group ==> StandsAlone(t) && (t.board ==> t.fee >= floor)
  }

  lemma {:induction false} SpendIsPositive(group: seq<Tx>, floor: int)
    requires EachStandsAlone(group, floor)
    ensures GroupSpend(group) >= |group|
  {
    if group != [] {
      PositiveOutputs(group[0].outputs);
      assert group[0] in group;
      assert EachStandsAlone(group[1..], floor);
      SpendIsPositive(group[1..], floor);
    }
  }

  /** Paying out never lowers anyone but the sender. */
  lemma {:induction false} CreditsOnlyRaise(l: Ledger, outputs: seq<Output>, a: Addr)
    requires forall i :: 0 <= i < |outputs| ==> outputs[i].amount > 0
    ensures Balance(CreditAll(l, outputs), a) >= Balance(l, a)
    decreases outputs
  {
    if outputs != [] {
      CreditsOnlyRaise(Credited(l, outputs[0].to, outputs[0].amount), outputs[1..], a);
    }
  }

  lemma TxOnlyLowersSender(l: Ledger, t: Tx, a: Addr)
    requires StandsAlone(t)
    ensures Balance(ApplyTx(l, t), a) >= Balance(l, a) - if a == t.sender then Spend(t) else 0
    ensures Nonce(ApplyTx(l, t), a) == if a == t.sender then t.nonce else Nonce(l, a)
  {
    var d := Debited(l, t.sender, Spend(t));
    CreditsOnlyRaise(d, t.outputs, a);
    MintedUnmoved(l, t);
  }

  /** What one funded, gap-free group leaves: it validates, and every other sender is no worse off. */
  lemma {:induction false} GroupValidates(l: Ledger, group: seq<Tx>, floor: int, a: Addr)
    requires (forall t :: t in group ==> group[0].sender == t.sender) && EachStandsAlone(group, floor)
    requires GapFree(l, group) && Funded(l, group)
    ensures ValidTxs(l, group, floor)
    ensures group != [] && a != group[0].sender ==>
              Balance(ApplyTxs(l, group), a) >= Balance(l, a) && Nonce(ApplyTxs(l, group), a) == Nonce(l, a)
    decreases group
  {
    if group != [] {
      var t, rest := group[0], group[1..];
      assert t in group;
      assert forall x :: x in rest ==> x in group;
      SpendIsPositive(rest, floor);
      assert t.nonce == Nonce(l, t.sender) + 1;
      TxOnlyLowersSender(l, t, t.sender);
      TxOnlyLowersSender(l, t, a);
      var next := ApplyTx(l, t);
      assert GapFree(next, rest) by {
        forall k | 0 <= k < |rest|
          ensures rest[k].nonce == Nonce(next, rest[k].sender) + 1 + k
        {
          assert rest[k] == group[k + 1] && rest[k] in group;
        }
      }
      GroupValidates(next, rest, floor, a);
    }
  }

  lemma {:induction false} SpendOfPrefix(group: seq<Tx>, k: nat, floor: int)
    requires k <= |group| && EachStandsAlone(group, floor)
    ensures GroupSpend(group[..k]) <= GroupSpend(group)
  {
    if k == 0 {
      SpendIsPositive(group, floor);
    } else {
      assert group[..k][1..] == group[1..][..k - 1];
      assert EachStandsAlone(group[1..], floor);
      SpendOfPrefix(group[1..], k - 1, floor);
    }
  }

  lemma PrefixStillFits(l: Ledger, group: seq<Tx>, k: nat, floor: int)
    requires k <= |group| && EachStandsAlone(group, floor) && GapFree(l, group) && Funded(l, group)
    ensures EachStandsAlone(group[..k], floor) && GapFree(l, group[..k]) && Funded(l, group[..k])
  {
    SpendOfPrefix(group, k, floor);
    assert forall t :: t in group[..k] ==> t in group;
  }

  ghost predicate Ready(l: Ledger, group: seq<Tx>, floor: int) {
    OneSender(group) && EachStandsAlone(group, floor) && GapFree(l, group) && Funded(l, group)
  }

  lemma ReadySurvives(l: Ledger, x: seq<Tx>, group: seq<Tx>, floor: int)
    requires Ready(l, group, floor) && (forall t :: t in x ==> x[0].sender == t.sender) && EachStandsAlone(x, floor)
    requires GapFree(l, x) && Funded(l, x) && (x != [] ==> x[0].sender != group[0].sender)
    ensures Ready(ApplyTxs(l, x), group, floor)
  {
    GroupValidates(l, x, floor, group[0].sender);
    var next := ApplyTxs(l, x);
    forall k | 0 <= k < |group|
      ensures group[k].nonce == Nonce(next, group[k].sender) + 1 + k
    {
      assert group[k] in group;
    }
  }

  lemma {:induction false} ValidAppend(l: Ledger, x: seq<Tx>, y: seq<Tx>, floor: int)
    ensures ValidTxs(l, x + y, floor) <==> ValidTxs(l, x, floor) && ValidTxs(ApplyTxs(l, x), y, floor)
    decreases x
  {
    if x == [] {
      assert x + y == y;
    } else {
      assert (x + y)[1..] == x[1..] + y;
      ValidAppend(ApplyTx(l, x[0]), x[1..], y, floor);
    }
  }

  /**
   Assembled blocks validate. If every sender's group continues its confirmed nonce without a gap and
   is funded by its confirmed balance, the packed list is accepted, whatever order the fee priority
   gave the groups and wherever the byte limit cut them.
   */
  lemma {:induction false} PackedValidates(l: Ledger, p: Pack, groups: seq<seq<Tx>>, floor: int)
    requires ValidTxs(l, p.txs, floor) && Grouped(groups)
    requires forall i :: 0 <= i < |groups| ==> Ready(ApplyTxs(l, p.txs), groups[i], floor)
    ensures ValidTxs(l, PackGroups(p, groups).txs, floor)
    decreases groups
  {
    if groups != [] {
      GroupedTail(groups);
      var at := ApplyTxs(l, p.txs);
      var k := Taken(p, groups[0]);
      var cut := groups[0][..k];
      var next := PackGroup(p, groups[0]);
      GroupPacksPrefix(p, groups[0]);
      assert Ready(at, groups[0], floor);
      PrefixStillFits(at, groups[0], k, floor);
      assert forall t :: t in cut ==> t in groups[0];
      GroupValidates(at, cut, floor, "");
      ValidAppend(l, p.txs, cut, floor);
      ApplyTxsAppend(l, p.txs, cut);
      forall i | 0 <= i < |groups[1..]|
        ensures Ready(ApplyTxs(l, next.txs), groups[1..][i], floor)
      {
        assert groups[1..][i] == groups[i + 1] && Ready(at, groups[i + 1], floor);
        ReadySurvives(at, cut, groups[i + 1], floor);
      }
      PackedValidates(l, next, groups[1..], floor);
    }
  }

  /** The gap-free condition is needed: a packed list whose nonces skip for some sender is refused. */
  lemma {:induction false} GapsAreRefused(l: Ledger, txs: seq<Tx>, floor: int, a: Addr)
    requires ValidTxs(l, txs, floor)
    ensures GapFree(l, From(txs, a))
    decreases txs
  {
    if txs != [] {
      TxOnlyLowersSender(l, txs[0], a);
      var next, rest := ApplyTx(l, txs[0]), From(txs[1..], a);
      GapsAreRefused(next, txs[1..], floor, a);
      FromIsFrom(txs[1..], a);
      forall k | 0 <= k < |From(txs, a)|
        ensures From(txs, a)[k].nonce == Nonce(l, From(txs, a)[k].sender) + 1 + k
      {
        if txs[0].sender == a {
          assert From(txs, a) == [txs[0]] + rest;
          if k > 0 {
            assert rest[k - 1].sender == a;
          }
        } else {
          assert From(txs, a) == rest;
          assert rest[k].sender == a;
        }
      }
    }
  }

  lemma {:induction false} FromIsFrom(txs: seq<Tx>, a: Addr)
    ensures forall k :: 0 <= k < |From(txs, a)| ==> From(txs, a)[k].sender == a
  {
    if txs != [] {
      FromIsFrom(txs[1..], a);
    }
  }

  // ----- Exactly when a list validates --------------------------------------------------------------------

  function PaidTo(outputs: seq<Output>, a: Addr): int {
    if outputs == [] then 0 else (if outputs[0].to == a then outputs[0].amount else 0) + PaidTo(outputs[1..], a)
  }

  /** What a list of transactions pays an address, less what it spends. */
  function NetOf(txs: seq<Tx>, a: Addr): int {
    if txs == [] then 0
    else NetOf(txs[..|txs| - 1], a) + PaidTo(txs[|txs| - 1].outputs, a)
         - if txs[|txs| - 1].sender == a then Spend(txs[|txs| - 1]) else 0
  }

  /** The sender can pay for transaction i out of its confirmed balance and what the list has moved so far. */
  predicate PaidFor(l: Ledger, txs: seq<Tx>, i: nat)
    requires i < |txs|
  {
    Spend(txs[i]) <= Balance(l, txs[i].sender) + NetOf(txs[..i], txs[i].sender)
  }

  lemma {:induction false} CreditsPay(l: Ledger, outputs: seq<Output>, a: Addr)
    ensures Balance(CreditAll(l, outputs), a) == Balance(l, a) + PaidTo(outputs, a)
    decreases outputs
  {
    if outputs != [] {
      CreditsPay(Credited(l, outputs[0].to, outputs[0].amount), outputs[1..], a);
    }
  }

  lemma {:induction false} BalanceAfter(l: Ledger, txs: seq<Tx>, a: Addr)
    ensures Balance(ApplyTxs(l, txs), a) == Balance(l, a) + NetOf(txs, a)
  {
    if txs != [] {
      var front, t := txs[..|txs| - 1], txs[|txs| - 1];
      assert txs == front + [t];
      BalanceAfter(l, front, a);
      ApplyTxsAppend(l, front, [t]);
      assert [t][1..] == [];
      var at := ApplyTxs(l, front);
      CreditsPay(Debited(at, t.sender, Spend(t)), t.outputs, a);
    }
  }

  lemma {:induction false} NonceAfter(l: Ledger, txs: seq<Tx>, a: Addr)
    requires GapFree(l, From(txs, a))
    ensures Nonce(ApplyTxs(l, txs), a) == Nonce(l, a) + |From(txs, a)|
  {
    if txs != [] {
      var front, t := txs[..|txs| - 1], txs[|txs| - 1];
      assert txs == front + [t];
      FromAppend(front, [t], a);
      FromOne(t, a);
      FromIsFrom(txs, a);
      ApplyTxsAppend(l, front, [t]);
      assert [t][1..] == [];
      MintedUnmoved(ApplyTxs(l, front), t);
      GapFreePrefix(l, From(txs, a), |From(front, a)|);
      assert From(txs, a)[..|From(front, a)|] == From(front, a);
      NonceAfter(l, front, a);
    }
  }

  lemma FromOne(t: Tx, a: Addr)
    ensures From([t], a) == if t.sender == a then [t] else []
  {
    assert [t][1..] == [];
  }

  lemma GapFreePrefix(l: Ledger, group: seq<Tx>, k: nat)
    requires GapFree(l, group) && k <= |group|
    ensures GapFree(l, group[..k])
  {
  }

  /** The next transaction of a sender continues its nonce exactly when the list stays gap-free. */
  lemma OneMoreIsGapFree(l: Ledger, front: seq<Tx>, t: Tx, a: Addr)
    requires GapFree(l, From(front, a))
    ensures GapFree(l, From(front + [t], a)) <==> (t.sender == a ==> t.nonce == Nonce(ApplyTxs(l, front), a) + 1)
  {
    FromAppend(front, [t], a);
    FromOne(t, a);
    NonceAfter(l, front, a);
    var x := From(front, a);
    if t.sender == a {
      assert From(front + [t], a) == x + [t];
      assert (x + [t])[|x|] == t;
    }
  }

  ghost predicate ListOk(l: Ledger, txs: seq<Tx>, floor: int) {
    && EachStandsAlone(txs, floor)
    && (forall a :: GapFree(l, From(txs, a)))
    && forall i :: 0 <= i < |txs| ==> PaidFor(l, txs, i)
  }

  lemma OneMoreIsOk(l: Ledger, front: seq<Tx>, t: Tx, floor: int)
    requires ListOk(l, front, floor)
    ensures ListOk(l, front + [t], floor) <==> ValidTx(ApplyTxs(l, front), t, floor)
  {
    var txs := front + [t];
    BalanceAfter(l, front, t.sender);
    forall a
      ensures GapFree(l, From(txs, a)) <==> (t.sender == a ==> t.nonce == Nonce(ApplyTxs(l, front), a) + 1)
    {
      OneMoreIsGapFree(l, front, t, a);
    }
    assert forall x :: x in txs <==> x in front || x == t;
    forall i | 0 <= i < |front|
      ensures PaidFor(l, txs, i)
    {
      assert PaidFor(l, front, i) && txs[..i] == front[..i];
    }
    assert txs[..|front|] == front && txs[|front|] == t;
    assert PaidFor(l, txs, |front|) <==> Spend(t) <= Balance(ApplyTxs(l, front), t.sender);
  }

  lemma FrontIsOk(l: Ledger, front: seq<Tx>, t: Tx, floor: int)
    requires ListOk(l, front + [t], floor)
    ensures ListOk(l, front, floor)
  {
    var txs := front + [t];
    assert forall x :: x in front ==> x in txs;
    forall a
      ensures GapFree(l, From(front, a))
    {
      FromAppend(front, [t], a);
      GapFreePrefix(l, From(txs, a), |From(front, a)|);
      assert From(txs, a)[..|From(front, a)|] == From(front, a);
    }
    forall i | 0 <= i < |front|
      ensures PaidFor(l, front, i)
    {
      assert PaidFor(l, txs, i) && txs[..i] == front[..i];
    }
  }

  /**
   A list of transactions validates exactly when each passes on its own and meets the floor, every
   sender's nonces continue its confirmed one without a gap, and each is paid for by the sender's confirmed
   balance and what the list has paid it and spent so far.
   */
  lemma {:induction false} ValidIff(l: Ledger, txs: seq<Tx>, floor: int)
    ensures ValidTxs(l, txs, floor) <==> ListOk(l, txs, floor)
  {
    if txs == [] {
      assert forall a :: From(txs, a) == [];
    } else {
      var front, t := txs[..|txs| - 1], txs[|txs| - 1];
      assert txs == front + [t];
      ValidIff(l, front, floor);
      ValidAppend(l, front, [t], floor);
      assert [t][1..] == [];
      assert ValidTxs(ApplyTxs(l, front), [t], floor) <==> ValidTx(ApplyTxs(l, front), t, floor);
      hide ValidTxs, ValidTx, ListOk;
      if ListOk(l, txs, floor) {
        FrontIsOk(l, front, t, floor);
      }
      if ListOk(l, front, floor) {
        OneMoreIsOk(l, front, t, floor);
      }
    }
  }

  /** Per sender, what is packed is a prefix of that sender's group. */
  lemma {:induction false} PackedIsPrefix(p: Pack, groups: seq<seq<Tx>>, g: nat)
    requires Grouped(groups) && g < |groups|
    requires forall i :: 0 <= i < |groups| ==> From(p.txs, groups[i][0].sender) == []
    ensures From(PackGroups(p, groups).txs, groups[g][0].sender) <= groups[g]
    decreases groups
  {
    GroupedTail(groups);
    var s, next := groups[0][0].sender, PackGroup(p, groups[0]);
    assert forall i :: 0 <= i < |groups[1..]| ==> groups[1..][i] == groups[i + 1];
    forall i | 0 <= i < |groups|
      ensures From(next.txs, groups[i][0].sender) == if i == 0 then groups[0][..Taken(p, groups[0])] else []
    {
      AfterGroup(p, groups[0], groups[i][0].sender);
    }
    hide PackGroup, From, OneSender, Taken;
    if g == 0 {
      OthersAddNothing(next, groups[1..], s);
    } else {
      PackedIsPrefix(next, groups[1..], g - 1);
    }
  }

  /** Packing one group adds its taken prefix for its own sender, and nothing for any other. */
  lemma AfterGroup(p: Pack, group: seq<Tx>, a: Addr)
    requires OneSender(group)
    ensures From(PackGroup(p, group).txs, a)
         == From(p.txs, a) + if a == group[0].sender then group[..Taken(p, group)] else []
  {
    var cut := group[..Taken(p, group)];
    GroupPacksPrefix(p, group);
    assert forall t :: t in cut ==> t in group;
    FromAppend(p.txs, cut, a);
    FromGroup(cut, group[0].sender, a);
  }

  lemma {:induction false} OthersAddNothing(p: Pack, groups: seq<seq<Tx>>, a: Addr)
    requires Grouped(groups) && forall i :: 0 <= i < |groups| ==> groups[i][0].sender != a
    ensures From(PackGroups(p, groups).txs, a) == From(p.txs, a)
    decreases groups
  {
    if groups != [] {
      GroupedTail(groups);
      AfterGroup(p, groups[0], a);
      assert forall i :: 0 <= i < |groups[1..]| ==> groups[1..][i] == groups[i + 1];
      OthersAddNothing(PackGroup(p, groups[0]), groups[1..], a);
    }
  }

  // ----- The byte limit ---------------------------------------------------------------------------------------

  function Sizes(txs: seq<Tx>): seq<int> { seq(|txs|, i requires 0 <= i < |txs| => txs[i].size) }

  /** The packed bytes are the transactions' own and one comma between any two. */
  lemma {:induction false} PackedSizeIs(txs: seq<Tx>)
    ensures PackedSize(txs) == Sum(Sizes(txs)) + if txs == [] then 0 else |txs| - 1
  {
    if txs != [] {
      var front := txs[..|txs| - 1];
      PackedSizeIs(front);
      assert Sizes(txs) == Sizes(front) + [txs[|txs| - 1].size];
      SumAppend(Sizes(front), [txs[|txs| - 1].size]);
    }
  }

  /** One more transaction would take the list past the limit. */
  predicate Overflows(p: Pack, t: Tx) { p.running + t.size + (if p.txs == [] then 0 else 1) > BLOCK_SIZE_LIMIT }

  lemma {:induction false} GroupStops(p: Pack, group: seq<Tx>)
    ensures var k, q := Taken(p, group), PackGroup(p, group);
            && p.running <= q.running && |p.txs| <= |q.txs|
            && (k < |group| ==> Overflows(q, group[k]))
    decreases group
  {
    if group != [] {
      var size := SizeInBlock(group[0], |p.txs|);
      if p.running + size <= BLOCK_SIZE_LIMIT {
        GroupStops(Pack(p.txs + [group[0]], p.running + size), group[1..]);
      }
    }
  }

  lemma {:induction false} PackingGrows(p: Pack, groups: seq<seq<Tx>>)
    ensures p.running <= PackGroups(p, groups).running && |p.txs| <= |PackGroups(p, groups).txs|
    decreases groups
  {
    if groups != [] {
      GroupStops(p, groups[0]);
      PackingGrows(PackGroup(p, groups[0]), groups[1..]);
    }
  }

  /** Packing stops a sender's group only at a transaction that does not fit, then or at the end. */
  lemma {:induction false} NothingMoreFits(p: Pack, groups: seq<seq<Tx>>, g: nat)
    requires Grouped(groups) && g < |groups|
    requires forall i :: 0 <= i < |groups| ==> From(p.txs, groups[i][0].sender) == []
    ensures var q := PackGroups(p, groups);
            var k := |From(q.txs, groups[g][0].sender)|;
            k < |groups[g]| ==> Overflows(q, groups[g][k])
    decreases groups
  {
    GroupedTail(groups);
    var s, next := groups[0][0].sender, PackGroup(p, groups[0]);
    assert forall i :: 0 <= i < |groups[1..]| ==> groups[1..][i] == groups[i + 1];
    forall i | 0 <= i < |groups|
      ensures From(next.txs, groups[i][0].sender) == if i == 0 then groups[0][..Taken(p, groups[0])] else []
    {
      AfterGroup(p, groups[0], groups[i][0].sender);
    }
    hide PackGroup, From, OneSender, Taken;
    if g == 0 {
      OthersAddNothing(next, groups[1..], s);
      GroupStops(p, groups[0]);
      PackingGrows(next, groups[1..]);
    } else {
      NothingMoreFits(next, groups[1..], g - 1);
    }
  }

  // ----- Grouping and ordering ------------------------------------------------------------------------------

  /** The position of a sender's group, or the length when there is none. */
  function FindGroup(groups: seq<seq<Tx>>, a: Addr, from: nat): (k: nat)
    requires from <= |groups| && forall i :: 0 <= i < |groups| ==> groups[i] != []
    ensures from <= k <= |groups|
    ensures k < |groups| ==> groups[k][0].sender == a
    ensures forall i :: from <= i < k ==> groups[i][0].sender != a
    decreases |groups| - from
  {
    if from == |groups| || groups[from][0].sender == a then from else FindGroup(groups, a, from + 1)
  }

  /** Appends a transaction to its sender's group, or opens one at the end. */
  function AddTo(groups: seq<seq<Tx>>, t: Tx): (r: seq<seq<Tx>>)
    requires forall i :: 0 <= i < |groups| ==> groups[i] != []
    ensures forall i :: 0 <= i < |r| ==> r[i] != []
  {
    var k := FindGroup(groups, t.sender, 0);
    if k < |groups| then groups[k := groups[k] + [t]] else groups + [[t]]
  }

  function GroupBySender(txs: seq<Tx>): (r: seq<seq<Tx>>)
    ensures forall i :: 0 <= i < |r| ==> r[i] != []
  {
    if txs == [] then [] else AddTo(GroupBySender(txs[..|txs| - 1]), txs[|txs| - 1])
  }

  /** Stable: a transaction goes after those with the same nonce. */
  function InsertByNonce(t: Tx, s: seq<Tx>): seq<Tx> {
    if s == [] || t.nonce < s[0].nonce then [t] + s else [s[0]] + InsertByNonce(t, s[1..])
  }

  function SortByNonce(s: seq<Tx>): seq<Tx> {
    if s == [] then [] else InsertByNonce(s[|s| - 1], SortByNonce(s[..|s| - 1]))
  }

  function LeadRate(group: seq<Tx>): real {
    if group == [] then 0.0 else group[0].fee as real / Max(group[0].bodySize, 1) as real
  }

  /** Stable and descending: a group goes after those that pay at least as much. */
  function InsertByRate(g: seq<Tx>, s: seq<seq<Tx>>): seq<seq<Tx>> {
    if s == [] || LeadRate(g) > LeadRate(s[0]) then [g] + s else [s[0]] + InsertByRate(g, s[1..])
  }

  function SortByRate(s: seq<seq<Tx>>): seq<seq<Tx>> {
    if s == [] then [] else InsertByRate(s[|s| - 1], SortByRate(s[..|s| - 1]))
  }

  function EachByNonce(groups: seq<seq<Tx>>): (r: seq<seq<Tx>>)
    ensures |r| == |groups| && forall i :: 0 <= i < |r| ==> r[i] == SortByNonce(groups[i])
  {
    seq(|groups|, i requires 0 <= i < |groups| => SortByNonce(groups[i]))
  }

  /** The groups in the order they are packed. */
  function Prioritized(txs: seq<Tx>, floor: int): seq<seq<Tx>> {
    SortByRate(EachByNonce(GroupBySender(Filtered(txs, floor))))
  }

  predicate ByNonce(s: seq<Tx>) { forall i, j :: 0 <= i < j < |s| ==> s[i].nonce <= s[j].nonce }

  lemma {:induction false} InsertByNonceBag(t: Tx, s: seq<Tx>)
    ensures multiset(InsertByNonce(t, s)) == multiset(s) + multiset{t}
  {
    if s != [] {
      assert s == [s[0]] + s[1..];
      InsertByNonceBag(t, s[1..]);
    }
  }

  lemma {:induction false} InsertByNonceKeeps(t: Tx, s: seq<Tx>)
    requires ByNonce(s)
    ensures ByNonce(InsertByNonce(t, s)) && InsertByNonce(t, s) != []
    ensures InsertByNonce(t, s)[0] == t || (s != [] && InsertByNonce(t, s)[0] == s[0])
  {
    if s != [] && t.nonce >= s[0].nonce {
      InsertByNonceKeeps(t, s[1..]);
      assert s[0].nonce <= InsertByNonce(t, s[1..])[0].nonce;
    }
  }

  lemma {:induction false} SortByNonceOrders(s: seq<Tx>)
    ensures ByNonce(SortByNonce(s))
  {
    if s != [] {
      SortByNonceOrders(s[..|s| - 1]);
      InsertByNonceKeeps(s[|s| - 1], SortByNonce(s[..|s| - 1]));
    }
  }

  lemma {:induction false} SortByNonceBag(s: seq<Tx>)
    ensures multiset(SortByNonce(s)) == multiset(s)
  {
    if s != [] {
      SortByNonceBag(s[..|s| - 1]);
      InsertByNonceBag(s[|s| - 1], SortByNonce(s[..|s| - 1]));
      hide InsertByNonce;
      assert s == s[..|s| - 1] + [s[|s| - 1]];
    }
  }

  /** A lead pays better than another when it offers more for each byte: when its fee is worth more bytes of the other's. */
  lemma LeadRatesCompare(g: seq<Tx>, h: seq<Tx>)
    requires g != [] && h != []
    ensures LeadRate(g) < LeadRate(h) <==> g[0].fee * Max(h[0].bodySize, 1) < h[0].fee * Max(g[0].bodySize, 1)
  {
    RatesCompare(g[0].fee, Max(g[0].bodySize, 1), h[0].fee, Max(h[0].bodySize, 1));
  }

  predicate ByRate(s: seq<seq<Tx>>) { forall i, j :: 0 <= i < j < |s| ==> LeadRate(s[i]) >= LeadRate(s[j]) }

  lemma {:induction false} InsertByRateKeeps(g: seq<Tx>, s: seq<seq<Tx>>)
    requires ByRate(s)
    ensures ByRate(InsertByRate(g, s)) && InsertByRate(g, s) != []
    ensures InsertByRate(g, s)[0] == g || (s != [] && InsertByRate(g, s)[0] == s[0])
  {
    hide LeadRate;
    if s != [] && LeadRate(g) <= LeadRate(s[0]) {
      InsertByRateKeeps(g, s[1..]);
      LeadsAll(s[0], InsertByRate(g, s[1..]));
    }
  }

  lemma LeadsAll(first: seq<Tx>, rest: seq<seq<Tx>>)
    requires ByRate(rest) && (rest != [] ==> LeadRate(first) >= LeadRate(rest[0]))
    ensures ByRate([first] + rest)
  {
    hide LeadRate;
    var r := [first] + rest;
    forall i, j | 0 <= i < j < |r|
      ensures LeadRate(r[i]) >= LeadRate(r[j])
    {
      assert r[j] == rest[j - 1];
      assert LeadRate(rest[0]) >= LeadRate(rest[j - 1]);
      if i > 0 {
        assert r[i] == rest[i - 1];
      }
    }
  }

  lemma {:induction false} InsertByRateBag(g: seq<Tx>, s: seq<seq<Tx>>)
    ensures multiset(InsertByRate(g, s)) == multiset(s) + multiset{g}
  {
    hide LeadRate;
    if s != [] {
      assert s == [s[0]] + s[1..];
      InsertByRateBag(g, s[1..]);
    }
  }

  lemma NothingToOrder(s: seq<seq<Tx>>)
    ensures |s| == 0 ==> ByRate(s)
  {
  }

  lemma {:induction false} SortByRateKeeps(s: seq<seq<Tx>>)
    ensures ByRate(SortByRate(s)) && multiset(SortByRate(s)) == multiset(s)
  {
    hide InsertByRate, ByRate;
    if s == [] {
      assert ByRate(s) by {
        NothingToOrder(s);
      }
    } else {
      SortByRateKeeps(s[..|s| - 1]);
      InsertByRateKeeps(s[|s| - 1], SortByRate(s[..|s| - 1]));
      InsertByRateBag(s[|s| - 1], SortByRate(s[..|s| - 1]));
      assert s == s[..|s| - 1] + [s[|s| - 1]];
    }
  }

  /** Group i is exactly what its sender has in the list, in list order. */
  ghost predicate GroupsOf(groups: seq<seq<Tx>>, txs: seq<Tx>) {
    && Grouped(groups)
    && (forall i :: 0 <= i < |groups| ==> groups[i] == From(txs, groups[i][0].sender))
    && (forall t :: t in txs ==> exists i :: 0 <= i < |groups| && groups[i][0].sender == t.sender)
  }

  lemma GroupAfter(group: seq<Tx>, txs: seq<Tx>, t: Tx)
    requires OneSender(group) && group == From(txs, group[0].sender)
    ensures From(txs + [t], group[0].sender) == group + if t.sender == group[0].sender then [t] else []
  {
    FromAppend(txs, [t], group[0].sender);
  }

  lemma JoinKeeps(groups: seq<seq<Tx>>, txs: seq<Tx>, t: Tx, k: nat)
    requires GroupsOf(groups, txs) && k < |groups| && groups[k][0].sender == t.sender
    ensures GroupsOf(groups[k := groups[k] + [t]], txs + [t])
  {
    var r := groups[k := groups[k] + [t]];
    forall i | 0 <= i < |r|
      ensures OneSender(r[i]) && r[i][0] == groups[i][0] && r[i] == From(txs + [t], r[i][0].sender)
    {
      assert OneSender(groups[i]);
      GroupAfter(groups[i], txs, t);
    }
    assert r[k][0].sender == t.sender;
  }

  lemma OpenKeeps(groups: seq<seq<Tx>>, txs: seq<Tx>, t: Tx)
    requires GroupsOf(groups, txs) && forall i :: 0 <= i < |groups| ==> groups[i][0].sender != t.sender
    ensures GroupsOf(groups + [[t]], txs + [t])
  {
    var r := groups + [[t]];
    NoneFrom(groups, txs, t.sender);
    FromAppend(txs, [t], t.sender);
    forall i | 0 <= i < |r|
      ensures OneSender(r[i]) && r[i] == From(txs + [t], r[i][0].sender)
    {
      if i < |groups| {
        assert OneSender(groups[i]);
        GroupAfter(groups[i], txs, t);
      }
    }
    hide From, OneSender;
    assert r[|groups|][0].sender == t.sender;
    forall x | x in txs
      ensures exists i :: 0 <= i < |r| && r[i][0].sender == x.sender
    {
      var i :| 0 <= i < |groups| && groups[i][0].sender == x.sender;
      assert r[i][0].sender == x.sender;
    }
  }

  lemma AddToKeeps(groups: seq<seq<Tx>>, txs: seq<Tx>, t: Tx)
    requires GroupsOf(groups, txs) && forall i :: 0 <= i < |groups| ==> groups[i] != []
    ensures GroupsOf(AddTo(groups, t), txs + [t])
  {
    hide GroupsOf;
    var k := FindGroup(groups, t.sender, 0);
    if k < |groups| {
      JoinKeeps(groups, txs, t, k);
    } else {
      OpenKeeps(groups, txs, t);
    }
  }

  lemma NoneFrom(groups: seq<seq<Tx>>, txs: seq<Tx>, a: Addr)
    requires GroupsOf(groups, txs) && forall i :: 0 <= i < |groups| ==> groups[i][0].sender != a
    ensures From(txs, a) == []
  {
    forall t | t in txs
      ensures t.sender != a
    {
      var i :| 0 <= i < |groups| && groups[i][0].sender == t.sender;
    }
    NothingFrom(txs, a);
  }

  lemma {:induction false} NothingFrom(txs: seq<Tx>, a: Addr)
    requires forall t :: t in txs ==> t.sender != a
    ensures From(txs, a) == []
  {
    if txs != [] {
      assert txs[0] in txs && forall t :: t in txs[1..] ==> t in txs;
      NothingFrom(txs[1..], a);
    }
  }

  lemma {:induction false} GroupingIsBySender(txs: seq<Tx>)
    ensures GroupsOf(GroupBySender(txs), txs)
  {
    if txs != [] {
      GroupingIsBySender(txs[..|txs| - 1]);
      AddToKeeps(GroupBySender(txs[..|txs| - 1]), txs[..|txs| - 1], txs[|txs| - 1]);
      assert txs == txs[..|txs| - 1] + [txs[|txs| - 1]];
    }
  }

  /** The packing order: one nonce-ordered group a sender, holding all that sender has, best-paying lead first. */
  lemma PrioritizedIs(txs: seq<Tx>, floor: int)
    ensures var groups := Prioritized(txs, floor);
            && Grouped(groups) && ByRate(groups)
            && (forall i :: 0 <= i < |groups| ==>
                  ByNonce(groups[i]) && multiset(groups[i]) == multiset(From(Filtered(txs, floor), groups[i][0].sender)))
  {
    var kept := Filtered(txs, floor);
    var raw := GroupBySender(kept);
    GroupingIsBySender(kept);
    hide GroupBySender, Filtered, SortByNonce, SortByRate, From, ByRate, LeadRate, ByNonce;
    var sorted := EachByNonce(raw);
    forall i | 0 <= i < |sorted|
      ensures SortedGroup(sorted[i], kept) && sorted[i][0].sender == raw[i][0].sender
    {
      SortingKeepsGroup(raw[i], kept);
    }
    SortByRateKeeps(sorted);
    SortByRateGroups(sorted);
    var groups := Prioritized(txs, floor);
    forall i | 0 <= i < |groups|
      ensures SortedGroup(groups[i], kept)
    {
      var k :| 0 <= k < |sorted| && sorted[k] == groups[i];
    }
  }

  ghost predicate SortedGroup(group: seq<Tx>, txs: seq<Tx>) {
    OneSender(group) && ByNonce(group) && multiset(group) == multiset(From(txs, group[0].sender))
  }

  lemma SortingKeepsGroup(raw: seq<Tx>, txs: seq<Tx>)
    requires OneSender(raw) && raw == From(txs, raw[0].sender)
    ensures SortedGroup(SortByNonce(raw), txs) && SortByNonce(raw)[0].sender == raw[0].sender
  {
    SortByNonceOrders(raw);
    SortByNonceBag(raw);
    SameBagSameSender(raw, SortByNonce(raw));
    hide SortByNonce, ByNonce, OneSender, From;
  }

  lemma SameBagSameSender(x: seq<Tx>, y: seq<Tx>)
    requires OneSender(x) && multiset(x) == multiset(y)
    ensures OneSender(y) && y[0].sender == x[0].sender
  {
    assert x[0] in multiset(x);
    assert forall t :: t in y ==> t in multiset(y);
    assert y != [] && y[0] in y;
  }

  lemma {:induction false} InsertByRateGroups(g: seq<Tx>, s: seq<seq<Tx>>)
    requires Grouped(s) && OneSender(g) && forall i :: 0 <= i < |s| ==> s[i][0].sender != g[0].sender
    ensures Grouped(InsertByRate(g, s))
    ensures forall i :: 0 <= i < |InsertByRate(g, s)| ==> InsertByRate(g, s)[i] == g || InsertByRate(g, s)[i] in s
  {
    hide LeadRate, OneSender;
    if s == [] || LeadRate(g) > LeadRate(s[0]) {
    } else {
      GroupedTail(s);
      assert forall i :: 0 <= i < |s[1..]| ==> s[1..][i] == s[i + 1];
      InsertByRateGroups(g, s[1..]);
    }
  }

  lemma {:induction false} SortByRateGroups(s: seq<seq<Tx>>)
    requires Grouped(s)
    ensures Grouped(SortByRate(s))
    ensures forall i :: 0 <= i < |SortByRate(s)| ==> SortByRate(s)[i] in s
  {
    if s != [] {
      var front, last := s[..|s| - 1], s[|s| - 1];
      SortByRateGroups(front);
      InsertByRateGroups(last, SortByRate(front));
    }
  }

  // ----- The assembler ------------------------------------------------------------------------------------

  function Assembled(txs: seq<Tx>, floor: int, baseSize: int): Pack {
    PackGroups(Pack([], baseSize), Prioritized(txs, floor))
  }

  /** Every transaction that clears the floor is in its sender's group. */
  lemma EveryoneIsGrouped(txs: seq<Tx>, floor: int, t: Tx) returns (g: nat)
    requires t in Filtered(txs, floor)
    ensures var groups := Prioritized(txs, floor);
            g < |groups| && groups[g] != [] && groups[g][0].sender == t.sender && t in groups[g]
  {
    var kept := Filtered(txs, floor);
    var raw: seq<seq<Tx>> := GroupBySender(kept);
    GroupingIsBySender(kept);
    PrioritizedIs(txs, floor);
    var i :| 0 <= i < |raw| && raw[i][0].sender == t.sender;
    assert OneSender(raw[i]);
    hide GroupBySender, Filtered, SortByNonce, SortByRate, ByRate, LeadRate, ByNonce, From;
    var sorted := EachByNonce(raw);
    SortingKeepsGroup(raw[i], kept);
    SortByRateKeeps(sorted);
    assert sorted[i] in multiset(sorted);
    g :| 0 <= g < |Prioritized(txs, floor)| && Prioritized(txs, floor)[g] == sorted[i];
    OwnIsFrom(kept, t);
    assert t in multiset(From(kept, t.sender));
    assert t in multiset(sorted[i]);
  }

  lemma {:induction false} OwnIsFrom(txs: seq<Tx>, t: Tx)
    requires t in txs
    ensures t in From(txs, t.sender)
  {
    if t != txs[0] {
      OwnIsFrom(txs[1..], t);
    }
  }

  /** Whatever of a sender's group was left out, the first of it does not fit on top of the finished list. */
  lemma AssembledIsFull(txs: seq<Tx>, floor: int, baseSize: int, g: nat)
    requires g < |Prioritized(txs, floor)|
    ensures var p, group := Assembled(txs, floor, baseSize), Prioritized(txs, floor)[g];
            && group != []
            && var k := |From(p.txs, group[0].sender)|;
               k < |group| ==> Overflows(p, group[k])
  {
    PrioritizedIs(txs, floor);
    hide PackGroups, Prioritized;
    assert OneSender(Prioritized(txs, floor)[g]);
    NothingMoreFits(Pack([], baseSize), Prioritized(txs, floor), g);
  }

  /**
   Nothing is left out without cause: a pending transaction that clears the floor is in the finished list
   unless it, or one of its own sender's that has to come first, does not fit on top of it.
   */
  lemma NothingLeftWithoutCause(txs: seq<Tx>, floor: int, baseSize: int, t: Tx) returns (u: Tx)
    requires t in Filtered(txs, floor) && t !in Assembled(txs, floor, baseSize).txs
    ensures u in Filtered(txs, floor) && u.sender == t.sender && u.nonce <= t.nonce
    ensures Overflows(Assembled(txs, floor, baseSize), u)
  {
    var g := EveryoneIsGrouped(txs, floor, t);
    var p, group := Assembled(txs, floor, baseSize), Prioritized(txs, floor)[g];
    AssembledIsFull(txs, floor, baseSize, g);
    PrioritizedIs(txs, floor);
    assert OneSender(group);
    hide Filtered, Prioritized, Assembled, From, Overflows;
    PackedOfGroup(txs, floor, baseSize, g);
    var taken := From(p.txs, t.sender);
    FromIsIn(p.txs, t.sender);
    var j := BehindPrefix(group, taken, t);
    u := group[|taken|];
    assert u in multiset(group);
    FromIsIn(Filtered(txs, floor), t.sender);
  }

  lemma BehindPrefix(group: seq<Tx>, taken: seq<Tx>, t: Tx) returns (j: nat)
    requires taken <= group && t in group && t !in taken
    ensures |taken| <= j < |group| && group[j] == t
  {
    forall i | 0 <= i < |taken|
      ensures group[i] != t
    {
      assert taken[i] in taken;
    }
    j :| 0 <= j < |group| && group[j] == t;
  }

  lemma PackedOfGroup(txs: seq<Tx>, floor: int, baseSize: int, g: nat)
    requires g < |Prioritized(txs, floor)|
    ensures Prioritized(txs, floor)[g] != []
    ensures From(Assembled(txs, floor, baseSize).txs, Prioritized(txs, floor)[g][0].sender) <= Prioritized(txs, floor)[g]
  {
    PrioritizedIs(txs, floor);
    hide PackGroups, Prioritized;
    assert OneSender(Prioritized(txs, floor)[g]);
    PackedIsPrefix(Pack([], baseSize), Prioritized(txs, floor), g);
  }

  method GroupAll(txs: seq<Tx>) returns (groups: seq<seq<Tx>>)
    ensures groups == GroupBySender(txs)
  {
    groups := [];
    assert txs[..0] == [];
    for i := 0 to |txs|
      invariant groups == GroupBySender(txs[..i])
    {
      assert txs[..i + 1][..i] == txs[..i];
      var k := 0;
      while k < |groups| && groups[k][0].sender != txs[i].sender
        invariant 0 <= k <= |groups| && FindGroup(groups, txs[i].sender, k) == FindGroup(groups, txs[i].sender, 0)
      {
        k := k + 1;
      }
      if k < |groups| {
        groups := groups[k := groups[k] + [txs[i]]];
      } else {
        groups := groups + [[txs[i]]];
      }
    }
    assert txs[..|txs|] == txs;
  }

  method Assemble(txs: seq<Tx>, floor: int, baseSize: int) returns (validTxs: seq<Tx>, running: int)
    ensures Pack(validTxs, running) == Assembled(txs, floor, baseSize)
  {
    var raw := GroupAll(Filtered(txs, floor));
    var groups := SortByRate(EachByNonce(raw));
    validTxs, running := [], baseSize;
    assert groups[0..] == groups;
    for g := 0 to |groups|
      invariant PackGroups(Pack(validTxs, running), groups[g..]) == Assembled(txs, floor, baseSize)
    {
      var group := groups[g];
      ghost var before := Pack(validTxs, running);
      assert groups[g..][1..] == groups[g + 1..];
      var i := 0;
      assert group[0..] == group;
      while i < |group| && running + SizeInBlock(group[i], |validTxs|) <= BLOCK_SIZE_LIMIT
        invariant 0 <= i <= |group|
        invariant PackGroup(Pack(validTxs, running), group[i..]) == PackGroup(before, group)
      {
        assert group[i..][1..] == group[i + 1..];
        running := running + SizeInBlock(group[i], |validTxs|);
        validTxs := validTxs + [group[i]];
        i := i + 1;
      }
      assert PackGroup(Pack(validTxs, running), group[i..]) == Pack(validTxs, running);
    }
    assert groups[|groups|..] == [];
  }

  lemma {:induction false} FilterClearsFloor(txs: seq<Tx>, floor: int, t: Tx)
    requires t in Filtered(txs, floor) && t.fee >= 0
    ensures t.board ==> t.fee >= floor
  {
    if t !in Filtered(txs[1..], floor) {
      assert t == txs[0];
    } else {
      FilterClearsFloor(txs[1..], floor, t);
    }
  }

  /** What the pending transactions of one sender must satisfy on the confirmed ledger. */
  ghost predicate Sendable(l: Ledger, group: seq<Tx>) {
    OneSender(group) && (forall t :: t in group ==> StandsAlone(t)) && GapFree(l, group) && Funded(l, group)
  }

  lemma SendableIsReady(l: Ledger, txs: seq<Tx>, floor: int, group: seq<Tx>, a: Addr)
    requires Sendable(l, group) && multiset(group) == multiset(From(Filtered(txs, floor), a))
    ensures Ready(l, group, floor)
  {
    forall t | t in group
      ensures t.board ==> t.fee >= floor
    {
      assert t in multiset(group);
      FromIsIn(Filtered(txs, floor), a);
      FilterClearsFloor(txs, floor, t);
    }
  }

  lemma {:induction false} FromIsIn(txs: seq<Tx>, a: Addr)
    ensures forall t :: t in From(txs, a) ==> t in txs
  {
    if txs != [] {
      FromIsIn(txs[1..], a);
    }
  }

  /**
   The assembled list: for each sender a prefix of its nonce order, `running` counting exactly what was
   packed and inside the limit, and accepted by sequential validation when every group is ready on the
   confirmed ledger.
   */
  lemma AssembledIs(l: Ledger, txs: seq<Tx>, floor: int, baseSize: int)
    ensures var p := Assembled(txs, floor, baseSize);
            var groups := Prioritized(txs, floor);
            && p.running == baseSize + PackedSize(p.txs)
            && (baseSize <= BLOCK_SIZE_LIMIT ==> p.running <= BLOCK_SIZE_LIMIT)
            && (forall g :: 0 <= g < |groups| ==> groups[g] != [] && From(p.txs, groups[g][0].sender) <= groups[g])
            && ((forall g :: 0 <= g < |groups| ==> Sendable(l, groups[g])) ==> ValidTxs(l, p.txs, floor))
  {
    var groups := Prioritized(txs, floor);
    PrioritizedIs(txs, floor);
    GroupsKeepCount(Pack([], baseSize), groups);
    forall g | 0 <= g < |groups|
      ensures groups[g] != [] && From(Assembled(txs, floor, baseSize).txs, groups[g][0].sender) <= groups[g]
    {
      assert OneSender(groups[g]);
      PackedIsPrefix(Pack([], baseSize), groups, g);
    }
    if forall g :: 0 <= g < |groups| ==> Sendable(l, groups[g]) {
      forall g | 0 <= g < |groups|
        ensures Ready(l, groups[g], floor)
      {
        SendableIsReady(l, txs, floor, groups[g], groups[g][0].sender);
      }
      PackedValidates(l, Pack([], baseSize), groups, floor);
    }
  }
}
