/**
 Stem and fluff: what one node sends when an item reaches it. Randomness (whether the walk goes on, and
 to whom), the room left in the mempool and the passing of time are parameters.
 */
module Gossip {
  import opened Collections

  type Peer = string
  type Hash = string

  datatype Kind = BlockKind | TxKind | OrderKind | FillRequestKind | FillResponseKind

  datatype Sent = Sent(item: Hash, kind: Kind, to: set<Peer>, stemming: bool)

  // ----- One item at one node -------------------------------------------------------------------------

  /** An originated item is remembered, with the peer it was stemmed to, until it is echoed or re-sent. */
  datatype Retry = Settled | Waiting(target: Option<Peer>)

  datatype Local = Local(held: bool, seen: bool, retry: Retry)

  /** The node's next state, and whom it sends the item to; nobody when `to` is empty. */
  datatype Reaction = Reaction(state: Local, to: set<Peer>, stemming: bool)

  function Others(peers: set<Peer>, exclude: Option<Peer>): set<Peer> {
    if exclude.Some? then peers - {exclude.value} else peers
  }

  function FluffFrom(l: Local, peers: set<Peer>, exclude: Option<Peer>): Reaction {
    if l.seen then Reaction(l, {}, false)
    else Reaction(l.(seen := true), Others(peers, exclude), false)
  }

  /** The walk goes on to `hop`, or ends here in a fluff that leaves nobody out. */
  function ForwardFrom(l: Local, peers: set<Peer>, hop: Option<Peer>): Reaction {
    if hop.Some? then Reaction(l, {hop.value}, true) else FluffFrom(l, peers, None)
  }

  predicate HopAllowed(peers: set<Peer>, predecessor: Option<Peer>, hop: Option<Peer>) {
    hop.Some? ==> hop.value in Others(peers, predecessor)
  }

  /** Word from the peer the item was stemmed to is worth nothing. */
  function EchoedBy(l: Local, sender: Peer): Local {
    if l.retry.Waiting? && l.retry.target != Some(sender) then l.(retry := Settled) else l
  }

  /** Originating: the item is already in the mempool. */
  function Originate(l: Local, peers: set<Peer>, hop: Option<Peer>): Reaction {
    var r := ForwardFrom(l, peers, hop);
    r.(state := r.state.(retry := Waiting(hop)))
  }

  /** No echo in time: flood to every peer, whether or not this item was flooded before. */
  function Resend(l: Local, peers: set<Peer>): Reaction
    requires l.retry.Waiting?
  {
    Reaction(l.(retry := Settled), peers, false)
  }

  /**
   A transaction arrives. A node that holds it already refuses it: its nonce is spent in the view it is
   validated against (Probe.HeldCopyIsRefused). A stemmed one is kept only where the walk ends.
   */
  function Receive(l: Local, peers: set<Peer>, sender: Peer, stemming: bool, hop: Option<Peer>, room: bool): Reaction {
    if l.held then Reaction(l, {}, false)
    else if stemming then
      var r := ForwardFrom(EchoedBy(l, sender), peers, hop);
      if hop.Some? then r else r.(state := r.state.(held := room))
    else FluffFrom(EchoedBy(l, sender).(held := room), peers, Some(sender))
  }

  /** The item goes public at this node: it comes in public, or its walk ends here. */
  predicate GoesPublic(stemming: bool, hop: Option<Peer>) { !stemming || hop.None? }

  /** What a node keeps of an arrival: exactly what it held, or what goes public here while there is room. */
  lemma KeptIff(l: Local, peers: set<Peer>, sender: Peer, stemming: bool, hop: Option<Peer>, room: bool)
    ensures Receive(l, peers, sender, stemming, hop, room).state.held <==> l.held || (room && GoesPublic(stemming, hop))
  {
  }

  // ----- The objects -------------------------------------------------------------------------------------

  class Gossip {
    var peers: set<Peer>
    var seen: map<Kind, set<Hash>>
    var outbox: seq<Sent>

    ghost predicate Valid()
      reads this
    {
      forall k :: k in seen
    }

    ghost predicate Seen(kind: Kind, h: Hash)
      requires Valid()
      reads this
    {
      h in seen[kind]
    }

    constructor (peers: set<Peer>)
      ensures Valid() && this.peers == peers && outbox == []
      ensures forall k, h :: !Seen(k, h)
    {
      this.peers := peers;
      seen := map[BlockKind := {}, TxKind := {}, OrderKind := {}, FillRequestKind := {}, FillResponseKind := {}];
      outbox := [];
      new;
      forall k: Kind
        ensures k in seen
      {
        match k
        case BlockKind =>
        case TxKind =>
        case OrderKind =>
        case FillRequestKind =>
        case FillResponseKind =>
      }
    }

    /** True if it already was; each kind has a cache of its own. */
    method MarkSeen(h: Hash, kind: Kind) returns (already: bool)
      requires Valid()
      modifies this`seen
      ensures Valid() && already == old(Seen(kind, h))
      ensures forall k, x :: Seen(k, x) <==> old(Seen(k, x)) || (k == kind && x == h)
    {
      already := h in seen[kind];
      seen := seen[kind := seen[kind] + {h}];
    }

    method Send(h: Hash, kind: Kind, to: set<Peer>, stemming: bool)
      modifies this`outbox
      ensures outbox == if to == {} then old(outbox) else old(outbox) + [Sent(h, kind, to, stemming)]
    {
      if to != {} {
        outbox := outbox + [Sent(h, kind, to, stemming)];
      }
    }

    method Fluff(h: Hash, kind: Kind, exclude: Option<Peer>)
      requires Valid()
      modifies this`seen, this`outbox
      ensures Valid()
      ensures forall k, x :: Seen(k, x) <==> old(Seen(k, x)) || (k == kind && x == h)
      ensures outbox == if old(Seen(kind, h)) || Others(peers, exclude) == {} then old(outbox)
                        else old(outbox) + [Sent(h, kind, Others(peers, exclude), false)]
    {
      var already := MarkSeen(h, kind);
      if !already {
        Send(h, kind, Others(peers, exclude), false);
      }
    }

    /** `goOn` is the coin, `pick` the random draw among the peers other than the predecessor. */
    method Forward(h: Hash, kind: Kind, predecessor: Option<Peer>, goOn: bool, pick: Option<Peer>)
      returns (hop: Option<Peer>)
      requires Valid()
      requires Others(peers, predecessor) != {} ==> pick.Some? && pick.value in Others(peers, predecessor)
      modifies this`seen, this`outbox
      ensures Valid() && HopAllowed(peers, predecessor, hop)
      ensures hop == if goOn && Others(peers, predecessor) != {} then pick else None
      ensures forall k, x :: Seen(k, x) <==> old(Seen(k, x)) || (hop.None? && k == kind && x == h)
      ensures hop.Some? ==> outbox == old(outbox) + [Sent(h, kind, {hop.value}, true)]
      ensures hop.None? ==> outbox == if old(Seen(kind, h)) || peers == {} then old(outbox)
                                      else old(outbox) + [Sent(h, kind, peers, false)]
    {
      if goOn && Others(peers, predecessor) != {} {
        Send(h, kind, {pick.value}, true);
        return pick;
      }
      Fluff(h, kind, None);
      return None;
    }

    method ForceFluff(h: Hash, kind: Kind)
      requires Valid()
      modifies this`outbox
      ensures outbox == if peers == {} then old(outbox) else old(outbox) + [Sent(h, kind, peers, false)]
    {
      Send(h, kind, peers, false);
    }
  }

  /** The parts of the node that carry a transaction: gossip, mempool membership, unechoed originals. */
  class TxRelay {
    const gossip: Gossip
    var pool: set<Hash>
    var unconfirmed: map<Hash, Option<Peer>>

    constructor (peers: set<Peer>)
      ensures gossip.Valid() && fresh(gossip) && gossip.peers == peers && gossip.outbox == []
      ensures forall h :: View(h) == Local(false, false, Settled)
    {
      gossip := new Gossip(peers);
      pool := {};
      unconfirmed := map[];
    }

    ghost function View(h: Hash): Local
      requires gossip.Valid()
      reads this, gossip
    {
      Local(h in pool, gossip.Seen(TxKind, h), if h in unconfirmed then Waiting(unconfirmed[h]) else Settled)
    }

    /** The node did exactly this about `h`, and nothing about any other item. */
    twostate predicate Did(h: Hash, r: Reaction)
      reads this, gossip
    {
      && old(gossip.Valid()) && gossip.Valid() && gossip.peers == old(gossip.peers)
      && View(h) == r.state
      && (forall x :: x != h ==> View(x) == old(View(x)))
      && gossip.outbox == if r.to == {} then old(gossip.outbox)
                          else old(gossip.outbox) + [Sent(h, TxKind, r.to, r.stemming)]
    }

    /** Sign, keep, spread. */
    method Spread(h: Hash, goOn: bool, pick: Option<Peer>) returns (hop: Option<Peer>)
      requires gossip.Valid() && h in pool
      requires gossip.peers != {} ==> pick.Some? && pick.value in gossip.peers
      modifies this, gossip
      ensures gossip.Valid() && HopAllowed(gossip.peers, None, hop)
      ensures Did(h, Originate(old(View(h)), old(gossip.peers), hop))
    {
      hop := gossip.Forward(h, TxKind, None, goOn, pick);
      unconfirmed := unconfirmed[h := hop];
    }

    method NoteEcho(h: Hash, sender: Peer)
      requires gossip.Valid()
      modifies this`unconfirmed
      ensures Did(h, Reaction(EchoedBy(old(View(h)), sender), {}, false))
      ensures h in unconfirmed <==> old(h in unconfirmed && unconfirmed[h] == Some(sender))
    {
      if h in unconfirmed && unconfirmed[h] != Some(sender) {
        unconfirmed := unconfirmed - {h};
      }
    }

    method RetryUnconfirmed(h: Hash)
      requires gossip.Valid() && h in unconfirmed
      modifies this`unconfirmed, gossip`outbox
      ensures Did(h, Resend(old(View(h)), old(gossip.peers)))
    {
      unconfirmed := unconfirmed - {h};
      gossip.ForceFluff(h, TxKind);
    }

    /** A transaction that is valid on this node's chain arrives from `sender`. */
    method HandleInbound(h: Hash, sender: Peer, stemming: bool, room: bool, goOn: bool, pick: Option<Peer>)
      returns (hop: Option<Peer>)
      requires gossip.Valid()
      requires Others(gossip.peers, Some(sender)) != {} ==> pick.Some? && pick.value in Others(gossip.peers, Some(sender))
      modifies this, gossip
      ensures gossip.Valid() && HopAllowed(gossip.peers, Some(sender), hop)
      ensures Did(h, Receive(old(View(h)), old(gossip.peers), sender, stemming, hop, room))
      ensures h in pool <==> old(h in pool) || (room && GoesPublic(stemming, hop))
    {
      hop := None;
      if h in pool {
        return;
      }
      NoteEcho(h, sender);
      if stemming {
        hop := gossip.Forward(h, TxKind, Some(sender), goOn, pick);
        if hop.Some? {
          return;
        }
      }
      if room {
        pool := pool + {h};
      }
      if !stemming {
        gossip.Fluff(h, TxKind, Some(sender));
      }
    }
  }
}
