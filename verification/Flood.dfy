/**
 A transaction crossing a fixed graph of peers. Stem hand-offs may be lost, and a mempool may refuse or
 evict it; public datagrams arrive. The item is valid wherever it is not held already.
 */
module Flood {
  import opened Collections
  import opened Gossip

  type Graph = map<Peer, set<Peer>>

  predicate GraphOk(g: Graph) {
    forall v :: v in g ==> g[v] <= g.Keys
  }

  datatype Packet = Packet(sender: Peer, to: Peer)

  /** `forced` records that the originator has flooded the item by the retry, which marks nothing. */
  datatype Net = Net(nodes: map<Peer, Local>, stem: multiset<Packet>, public: multiset<Packet>, forced: bool)

  function PacketsFrom(v: Peer, to: set<Peer>): multiset<Packet> {
    multiset(set p | p in to :: Packet(v, p))
  }

  function Emit(n: Net, v: Peer, r: Reaction): Net {
    var out := PacketsFrom(v, r.to);
    if r.stemming then n.(nodes := n.nodes[v := r.state], stem := n.stem + out)
    else n.(nodes := n.nodes[v := r.state], public := n.public + out)
  }

  datatype Step =
    | StemArrives(packet: Packet, hop: Option<Peer>, room: bool)
    | StemLost(packet: Packet)
    | PublicArrives(packet: Packet, room: bool)
    | RetryFires
    | Evicted(at: Peer)

  predicate Enabled(g: Graph, o: Peer, n: Net, s: Step)
    requires o in n.nodes
  {
    match s
    case StemArrives(p, hop, _) => p in n.stem && p.to in g && p.to in n.nodes && HopAllowed(g[p.to], Some(p.sender), hop)
    case StemLost(p) => p in n.stem
    case PublicArrives(p, _) => p in n.public && p.to in g && p.to in n.nodes
    case RetryFires => o in g && n.nodes[o].retry.Waiting?
    case Evicted(v) => v in n.nodes
  }

  function Take(n: Net, o: Peer, g: Graph, s: Step): Net
    requires o in n.nodes && Enabled(g, o, n, s)
  {
    match s
    case StemArrives(p, hop, room) =>
      Emit(n.(stem := n.stem - multiset{p}), p.to, Receive(n.nodes[p.to], g[p.to], p.sender, true, hop, room))
    case StemLost(p) => n.(stem := n.stem - multiset{p})
    case PublicArrives(p, room) =>
      Emit(n.(public := n.public - multiset{p}), p.to, Receive(n.nodes[p.to], g[p.to], p.sender, false, None, room))
    case RetryFires => Emit(n, o, Resend(n.nodes[o], g[o])).(forced := true)
    case Evicted(v) => n.(nodes := n.nodes[v := n.nodes[v].(held := false)])
  }

  /** The originator holds the item and hands it on; nobody else knows of it. */
  function Start(g: Graph, o: Peer, hop: Option<Peer>): Net
    requires o in g
  {
    var blank := map v | v in g :: Local(v == o, false, Settled);
    Emit(Net(blank, multiset{}, multiset{}, false), o, Originate(blank[o], g[o], hop))
  }

  /** The networks after each step, from `n` on. */
  ghost predicate Run(g: Graph, o: Peer, n: Net, steps: seq<Step>, last: Net)
    decreases steps
  {
    if steps == [] then last == n
    else o in n.nodes && Enabled(g, o, n, steps[0]) && Run(g, o, Take(n, o, g, steps[0]), steps[1..], last)
  }

  /** The originator's own mempool never drops the item. */
  predicate KeptAtOrigin(o: Peer, steps: seq<Step>) {
    Evicted(o) !in steps
  }

  predicate Quiet(n: Net) { n.stem == multiset{} && n.public == multiset{} }

  // ----- Delivery ------------------------------------------------------------------------------------------

  /** The node has put the item in front of all its peers. */
  predicate Flooded(o: Peer, n: Net, v: Peer) {
    (v in n.nodes && n.nodes[v].seen) || (v == o && n.forced)
  }

  predicate Reached(o: Peer, n: Net, v: Peer) { v == o || (v in n.nodes && n.nodes[v].seen) }

  ghost predicate Covered(g: Graph, o: Peer, n: Net) {
    forall u, p :: u in g && Flooded(o, n, u) && p in g[u] && !Reached(o, n, p) ==> Packet(u, p) in n.public
  }

  ghost predicate SentByFlooders(g: Graph, o: Peer, n: Net) {
    forall p :: p in n.public ==> Flooded(o, n, p.sender) && p.sender in g
  }

  ghost predicate NetInv(g: Graph, o: Peer, n: Net) {
    && GraphOk(g) && o in g && n.nodes.Keys == g.Keys
    && Covered(g, o, n) && SentByFlooders(g, o, n)
    && (forall v :: v in n.nodes && v != o && n.nodes[v].held ==> n.nodes[v].seen)
  }

  /** While the originator holds the item, only the retry settles it. */
  predicate OriginHolds(o: Peer, n: Net) {
    o in n.nodes && n.nodes[o].held && (n.nodes[o].retry.Settled? ==> n.forced)
  }

  lemma PacketsFromSends(v: Peer, to: set<Peer>, p: Packet)
    ensures p in PacketsFrom(v, to) <==> p.sender == v && p.to in to
  {
    if p.sender == v && p.to in to {
      assert Packet(v, p.to) == p;
    }
  }

  /** `Emit`, noting whether this was the originator's unmarked flood. */
  function EmitAs(n: Net, v: Peer, r: Reaction, again: bool): Net {
    Emit(n, v, r).(forced := n.forced || again)
  }

  /** What a node may do about the item: a first flood leaves out at most a peer already reached. */
  ghost predicate FairReaction(g: Graph, o: Peer, n: Net, v: Peer, r: Reaction, again: bool) {
    && v in n.nodes && v in g
    && (r.state.held && v != o ==> r.state.seen)
    && (n.nodes[v].seen ==> r.state.seen)
    && (again ==> v == o)
    && ((r.state.seen && !n.nodes[v].seen) || again ==>
          !r.stemming && forall p :: p in g[v] && p !in r.to ==> Reached(o, n, p))
    && (r.to != {} && !r.stemming ==> r.state.seen || again)
  }

  lemma EmitCovers(g: Graph, o: Peer, n: Net, v: Peer, r: Reaction, again: bool)
    requires NetInv(g, o, n) && FairReaction(g, o, n, v, r, again)
    ensures Covered(g, o, EmitAs(n, v, r, again))
  {
    var m := EmitAs(n, v, r, again);
    hide PacketsFrom, GraphOk, SentByFlooders;
    forall u, p | u in g && Flooded(o, m, u) && p in g[u] && !Reached(o, m, p)
      ensures Packet(u, p) in m.public
    {
      assert !Reached(o, n, p);
      if Flooded(o, n, u) {
        assert Packet(u, p) in n.public;
      } else {
        assert u == v;
        PacketsFromSends(v, r.to, Packet(u, p));
      }
    }
  }

  lemma EmitSends(g: Graph, o: Peer, n: Net, v: Peer, r: Reaction, again: bool)
    requires NetInv(g, o, n) && FairReaction(g, o, n, v, r, again)
    ensures SentByFlooders(g, o, EmitAs(n, v, r, again))
  {
    var m := EmitAs(n, v, r, again);
    hide PacketsFrom, Covered, GraphOk;
    forall p | p in m.public
      ensures Flooded(o, m, p.sender) && p.sender in g
    {
      PacketsFromSends(v, r.to, p);
      if p in n.public {
        assert Flooded(o, n, p.sender) && p.sender in g;
        assert p.sender == v || (p.sender in n.nodes ==> m.nodes[p.sender] == n.nodes[p.sender]);
      }
    }
  }

  lemma EmitKeeps(g: Graph, o: Peer, n: Net, v: Peer, r: Reaction, again: bool)
    requires NetInv(g, o, n) && FairReaction(g, o, n, v, r, again)
    ensures NetInv(g, o, EmitAs(n, v, r, again))
  {
    EmitCovers(g, o, n, v, r, again);
    EmitSends(g, o, n, v, r, again);
    hide Covered, SentByFlooders, GraphOk;
    assert EmitAs(n, v, r, again).nodes.Keys == n.nodes.Keys;
  }

  /** Everything but Covered survives taking one packet off the wire, and Covered once its receiver is reached. */
  lemma TakenOff(g: Graph, o: Peer, n: Net, p: Packet)
    requires NetInv(g, o, n) && p in n.public && Reached(o, n, p.to)
    ensures NetInv(g, o, n.(public := n.public - multiset{p}))
  {
    var m := n.(public := n.public - multiset{p});
    forall u, q | u in g && Flooded(o, m, u) && q in g[u] && !Reached(o, m, q)
      ensures Packet(u, q) in m.public
    {
      assert Flooded(o, n, u) && !Reached(o, n, q);
      assert Packet(u, q) in n.public;
    }
    forall q | q in m.public
      ensures Flooded(o, m, q.sender) && q.sender in g
    {
      assert q in n.public;
      assert Flooded(o, n, q.sender);
    }
  }

  lemma ReceiveIsFair(g: Graph, o: Peer, n: Net, p: Packet, stemming: bool, hop: Option<Peer>, room: bool)
    requires NetInv(g, o, n) && p.to in n.nodes
    requires stemming || Reached(o, n, p.sender)
    ensures FairReaction(g, o, n, p.to, Receive(n.nodes[p.to], g[p.to], p.sender, stemming, hop, room), false)
    ensures !stemming ==> Reached(o, EmitAs(n, p.to, Receive(n.nodes[p.to], g[p.to], p.sender, stemming, hop, room), false), p.to)
  {
    hide Covered, SentByFlooders, GraphOk, PacketsFrom;
  }

  /** Handling a packet and then taking it off the wire is the same as the other way round. */
  lemma EmitThenTake(n: Net, p: Packet, r: Reaction)
    requires p in n.public
    ensures Emit(n.(public := n.public - multiset{p}), p.to, r)
         == EmitAs(n, p.to, r, false).(public := EmitAs(n, p.to, r, false).public - multiset{p})
  {
    var out := PacketsFrom(p.to, r.to);
    assert n.public - multiset{p} + out == n.public + out - multiset{p};
  }

  /** Every step keeps the flood's frontier on the wire. */
  lemma TakeKeeps(g: Graph, o: Peer, n: Net, s: Step)
    requires NetInv(g, o, n) && Enabled(g, o, n, s)
    ensures NetInv(g, o, Take(n, o, g, s))
  {
    match s
    case StemArrives(p, hop, room) =>
      var m := n.(stem := n.stem - multiset{p});
      StemIsNoMatter(g, o, n, m);
      ReceiveIsFair(g, o, m, p, true, hop, room);
      EmitKeeps(g, o, m, p.to, Receive(n.nodes[p.to], g[p.to], p.sender, true, hop, room), false);
    case StemLost(p) =>
      StemIsNoMatter(g, o, n, n.(stem := n.stem - multiset{p}));
    case PublicArrives(p, room) =>
      var r := Receive(n.nodes[p.to], g[p.to], p.sender, false, None, room);
      assert Flooded(o, n, p.sender);
      ReceiveIsFair(g, o, n, p, false, None, room);
      EmitKeeps(g, o, n, p.to, r, false);
      EmitThenTake(n, p, r);
      TakenOff(g, o, EmitAs(n, p.to, r, false), p);
    case RetryFires =>
      EmitKeeps(g, o, n, o, Resend(n.nodes[o], g[o]), true);
    case Evicted(v) =>
      EvictionIsNoMatter(g, o, n, v);
  }

  lemma StemIsNoMatter(g: Graph, o: Peer, n: Net, m: Net)
    requires NetInv(g, o, n) && m == n.(stem := m.stem)
    ensures NetInv(g, o, m)
  {
    forall u, p | u in g && Flooded(o, m, u) && p in g[u] && !Reached(o, m, p)
      ensures Packet(u, p) in m.public
    {
      assert Flooded(o, n, u) && !Reached(o, n, p);
    }
    forall p | p in m.public
      ensures Flooded(o, m, p.sender) && p.sender in g
    {
      assert p in n.public && Flooded(o, n, p.sender);
    }
  }

  lemma EvictionIsNoMatter(g: Graph, o: Peer, n: Net, v: Peer)
    requires NetInv(g, o, n) && v in n.nodes
    ensures NetInv(g, o, n.(nodes := n.nodes[v := n.nodes[v].(held := false)]))
  {
    var r := Reaction(n.nodes[v].(held := false), {}, false);
    EmitKeeps(g, o, n, v, r, false);
    assert PacketsFrom(v, {}) == multiset{};
    assert EmitAs(n, v, r, false) == n.(nodes := n.nodes[v := r.state]);
  }

  // ----- Whole runs ------------------------------------------------------------------------------------------

  lemma StartKeeps(g: Graph, o: Peer, hop: Option<Peer>)
    requires GraphOk(g) && o in g && HopAllowed(g[o], None, hop)
    ensures NetInv(g, o, Start(g, o, hop)) && OriginHolds(o, Start(g, o, hop))
    ensures Start(g, o, hop).nodes[o].seen == hop.None? && !Start(g, o, hop).forced
  {
    var blank := Net(map v | v in g :: Local(v == o, false, Settled), multiset{}, multiset{}, false);
    var r := Originate(blank.nodes[o], g[o], hop);
    EmitKeeps(g, o, blank, o, r, false);
    assert EmitAs(blank, o, r, false) == Start(g, o, hop);
  }

  lemma HeldIsUnmoved(l: Local, peers: set<Peer>, sender: Peer, stemming: bool, hop: Option<Peer>, room: bool)
    requires l.held
    ensures Receive(l, peers, sender, stemming, hop, room) == Reaction(l, {}, false)
  {
  }

  lemma EmitTouches(n: Net, v: Peer, r: Reaction, w: Peer)
    requires v in n.nodes && w in n.nodes
    ensures w in Emit(n, v, r).nodes && Emit(n, v, r).nodes[w] == (if w == v then r.state else n.nodes[w])
    ensures Emit(n, v, r).forced == n.forced
  {
    hide PacketsFrom;
  }

  /** A held copy is refused, so nothing that arrives changes what the originator knows. */
  lemma OriginUnmoved(g: Graph, o: Peer, n: Net, s: Step)
    requires OriginHolds(o, n) && Enabled(g, o, n, s) && s != Evicted(o)
    ensures var m := Take(n, o, g, s);
            OriginHolds(o, m) && m.nodes[o].seen == n.nodes[o].seen && (m.forced <==> n.forced || s.RetryFires?)
    ensures (n.forced <==> n.nodes[o].retry.Settled?) ==>
              (Take(n, o, g, s).forced <==> Take(n, o, g, s).nodes[o].retry.Settled?)
  {
    hide PacketsFrom, Receive, Emit, HopAllowed;
    match s
    case StemArrives(p, hop, room) =>
      var m := n.(stem := n.stem - multiset{p});
      var r := Receive(n.nodes[p.to], g[p.to], p.sender, true, hop, room);
      EmitTouches(m, p.to, r, o);
      if p.to == o {
        HeldIsUnmoved(n.nodes[o], g[o], p.sender, true, hop, room);
      }
    case StemLost(p) =>
    case PublicArrives(p, room) =>
      var m := n.(public := n.public - multiset{p});
      var r := Receive(n.nodes[p.to], g[p.to], p.sender, false, None, room);
      EmitTouches(m, p.to, r, o);
      if p.to == o {
        HeldIsUnmoved(n.nodes[o], g[o], p.sender, false, None, room);
      }
    case RetryFires =>
      EmitTouches(n, o, Resend(n.nodes[o], g[o]), o);
    case Evicted(v) =>
  }

  ghost predicate RunFacts(g: Graph, o: Peer, n: Net, marked: bool) {
    && NetInv(g, o, n) && OriginHolds(o, n) && n.nodes[o].seen == marked
    && (n.forced <==> n.nodes[o].retry.Settled?)
  }

  lemma {:induction false} RunKeeps(g: Graph, o: Peer, n: Net, steps: seq<Step>, last: Net, marked: bool)
    requires RunFacts(g, o, n, marked) && KeptAtOrigin(o, steps) && Run(g, o, n, steps, last)
    ensures RunFacts(g, o, last, marked)
    decreases steps
  {
    if steps != [] {
      assert steps[0] in steps;
      TakeKeeps(g, o, n, steps[0]);
      OriginUnmoved(g, o, n, steps[0]);
      assert KeptAtOrigin(o, steps[1..]);
      RunKeeps(g, o, Take(n, o, g, steps[0]), steps[1..], last, marked);
    }
  }

  /**
   The originator learns nothing from the network: its own copies are refused unread, so it marks the
   item only if it flooded at once, and only the retry ever settles the entry it keeps.
   */
  lemma OnlyTheRetrySettles(g: Graph, o: Peer, hop: Option<Peer>, steps: seq<Step>, last: Net)
    requires GraphOk(g) && o in g && HopAllowed(g[o], None, hop)
    requires KeptAtOrigin(o, steps) && Run(g, o, Start(g, o, hop), steps, last)
    ensures o in last.nodes && (last.nodes[o].seen <==> hop.None?)
    ensures last.nodes[o].retry.Settled? <==> last.forced
  {
    StartKeeps(g, o, hop);
    RunKeeps(g, o, Start(g, o, hop), steps, last, hop.None?);
  }

  predicate Edge(g: Graph, u: Peer, v: Peer) { u in g && v in g[u] }

  ghost predicate Path(g: Graph, path: seq<Peer>) {
    && path != [] && path[0] in g
    && (|path| > 1 ==> Path(g, path[..|path| - 1]) && Edge(g, path[|path| - 2], path[|path| - 1]))
  }

  ghost predicate Connected(g: Graph, o: Peer, v: Peer) {
    exists path :: Path(g, path) && path[0] == o && path[|path| - 1] == v
  }

  ghost predicate EveryoneFlooded(g: Graph, o: Peer, n: Net) {
    forall v :: Connected(g, o, v) ==> Flooded(o, n, v) && (v != o ==> v in n.nodes && n.nodes[v].seen)
  }

  lemma {:induction false} FloodFollowsPath(g: Graph, o: Peer, n: Net, path: seq<Peer>)
    requires NetInv(g, o, n) && n.public == multiset{} && Flooded(o, n, o) && Path(g, path) && path[0] == o
    ensures Flooded(o, n, path[|path| - 1]) && Reached(o, n, path[|path| - 1])
    decreases |path|
  {
    if |path| > 1 {
      var before := path[..|path| - 1];
      FloodFollowsPath(g, o, n, before);
      assert before[|before| - 1] == path[|path| - 2];
      var u, v := path[|path| - 2], path[|path| - 1];
      assert Edge(g, u, v) && Flooded(o, n, u);
      assert Packet(u, v) !in n.public;
    }
  }

  lemma QuietMeansFlooded(g: Graph, o: Peer, n: Net)
    requires NetInv(g, o, n) && n.public == multiset{}
    ensures EveryoneFlooded(g, o, n) <==> Flooded(o, n, o)
  {
    hide NetInv;
    if Flooded(o, n, o) {
      forall v | Connected(g, o, v)
        ensures Flooded(o, n, v) && (v != o ==> v in n.nodes && n.nodes[v].seen)
      {
        var path :| Path(g, path) && path[0] == o && path[|path| - 1] == v;
        FloodFollowsPath(g, o, n, path);
      }
    } else {
      OriginIsInGraph(g, o, n);
      assert Path(g, [o]);
      assert Connected(g, o, o);
    }
  }

  lemma OriginIsInGraph(g: Graph, o: Peer, n: Net)
    requires NetInv(g, o, n)
    ensures o in g
  {
  }

  /**
   Delivery. Once no public copy is in flight, the item has been flooded by every node connected to the
   originator exactly when the originator flooded it: at once, or by the retry. What became of the stem,
   and what any other mempool kept, refused or evicted, makes no difference.
   */
  lemma FloodReachesEveryone(g: Graph, o: Peer, hop: Option<Peer>, steps: seq<Step>, last: Net)
    requires GraphOk(g) && o in g && HopAllowed(g[o], None, hop)
    requires KeptAtOrigin(o, steps) && Run(g, o, Start(g, o, hop), steps, last)
    requires last.public == multiset{}
    ensures EveryoneFlooded(g, o, last) <==> hop.None? || RetryFires in steps
  {
    StartKeeps(g, o, hop);
    RunKeeps(g, o, Start(g, o, hop), steps, last, hop.None?);
    RetryIsRemembered(g, o, Start(g, o, hop), steps, last);
    hide Run, Start, NetInv, KeptAtOrigin, HopAllowed, EveryoneFlooded;
    QuietMeansFlooded(g, o, last);
  }

  lemma {:induction false} RetryIsRemembered(g: Graph, o: Peer, n: Net, steps: seq<Step>, last: Net)
    requires OriginHolds(o, n) && KeptAtOrigin(o, steps) && Run(g, o, n, steps, last)
    ensures last.forced <==> n.forced || RetryFires in steps
    decreases steps
  {
    if steps != [] {
      assert steps[0] in steps;
      OriginUnmoved(g, o, n, steps[0]);
      assert steps == [steps[0]] + steps[1..];
      RetryIsRemembered(g, o, Take(n, o, g, steps[0]), steps[1..], last);
    }
  }

  // ----- Who keeps it -----------------------------------------------------------------------------------------

  /** Whenever the item comes to this node there is room for it, and it is never evicted there. */
  predicate KeepsAt(v: Peer, steps: seq<Step>) {
    forall s :: s in steps ==>
      && s != Evicted(v) && (s.StemArrives? && s.packet.to == v ==> s.room) && (s.PublicArrives? && s.packet.to == v ==> s.room)
  }

  predicate SeenIsHeld(n: Net, v: Peer) { v in n.nodes && (n.nodes[v].seen ==> n.nodes[v].held) }

  lemma ReceiveKeeps(l: Local, peers: set<Peer>, sender: Peer, stemming: bool, hop: Option<Peer>)
    requires l.seen ==> l.held
    ensures var r := Receive(l, peers, sender, stemming, hop, true); r.state.seen ==> r.state.held
  {
  }

  lemma StepKeepsItem(g: Graph, o: Peer, n: Net, s: Step, v: Peer)
    requires NetInv(g, o, n) && Enabled(g, o, n, s) && SeenIsHeld(n, v) && KeepsAt(v, [s])
    ensures SeenIsHeld(Take(n, o, g, s), v)
  {
    assert s in [s];
    hide PacketsFrom, Receive, Emit, HopAllowed, NetInv;
    match s
    case StemArrives(p, hop, room) =>
      EmitTouches(n.(stem := n.stem - multiset{p}), p.to, Receive(n.nodes[p.to], g[p.to], p.sender, true, hop, room), v);
      if p.to == v {
        ReceiveKeeps(n.nodes[v], g[v], p.sender, true, hop);
      }
    case StemLost(p) =>
    case PublicArrives(p, room) =>
      EmitTouches(n.(public := n.public - multiset{p}), p.to, Receive(n.nodes[p.to], g[p.to], p.sender, false, None, room), v);
      if p.to == v {
        ReceiveKeeps(n.nodes[v], g[v], p.sender, false, None);
      }
    case RetryFires => EmitTouches(n, o, Resend(n.nodes[o], g[o]), v);
    case Evicted(u) =>
  }

  lemma {:induction false} RunKeepsItem(g: Graph, o: Peer, n: Net, steps: seq<Step>, last: Net, v: Peer)
    requires NetInv(g, o, n) && Run(g, o, n, steps, last) && SeenIsHeld(n, v) && KeepsAt(v, steps)
    ensures SeenIsHeld(last, v) && NetInv(g, o, last)
    decreases steps
  {
    hide NetInv, Enabled, Take;
    if steps != [] {
      assert steps[0] in steps && forall s :: s in steps[1..] ==> s in steps;
      TakeKeeps(g, o, n, steps[0]);
      StepKeepsItem(g, o, n, steps[0], v);
      RunKeepsItem(g, o, Take(n, o, g, steps[0]), steps[1..], last, v);
    }
  }

  lemma HeldIsSeen(g: Graph, o: Peer, n: Net, v: Peer)
    requires NetInv(g, o, n) && v in n.nodes && v != o
    ensures n.nodes[v].held ==> n.nodes[v].seen
  {
  }

  lemma StartHolds(g: Graph, o: Peer, hop: Option<Peer>, v: Peer)
    requires GraphOk(g) && o in g && HopAllowed(g[o], None, hop) && v in g
    ensures SeenIsHeld(Start(g, o, hop), v)
  {
    hide PacketsFrom;
  }

  /**
   In any run, whatever other nodes refuse or evict: a node with room that never evicts the item holds it
   exactly when it has flooded it.
   */
  lemma HeldIffSeen(g: Graph, o: Peer, hop: Option<Peer>, steps: seq<Step>, last: Net, v: Peer)
    requires GraphOk(g) && o in g && HopAllowed(g[o], None, hop) && Run(g, o, Start(g, o, hop), steps, last)
    requires v in g && v != o && KeepsAt(v, steps)
    ensures v in last.nodes && (last.nodes[v].held <==> last.nodes[v].seen)
  {
    StartKeeps(g, o, hop);
    StartHolds(g, o, hop, v);
    hide NetInv, Start, Run;
    RunKeepsItem(g, o, Start(g, o, hop), steps, last, v);
    HeldIsSeen(g, o, last, v);
  }

  lemma PathStaysIn(g: Graph, o: Peer, v: Peer)
    requires GraphOk(g) && Connected(g, o, v)
    ensures v in g
  {
    var path :| Path(g, path) && path[0] == o && path[|path| - 1] == v;
    if |path| > 1 {
      assert Edge(g, path[|path| - 2], path[|path| - 1]);
    }
  }

  /**
   Admission. Once no public copy is in flight, every node connected to the originator that had room and
   evicted nothing holds the item, ready to mine it, whenever the originator flooded it.
   */
  lemma FloodIsKept(g: Graph, o: Peer, hop: Option<Peer>, steps: seq<Step>, last: Net, v: Peer)
    requires GraphOk(g) && o in g && HopAllowed(g[o], None, hop) && Run(g, o, Start(g, o, hop), steps, last)
    requires KeptAtOrigin(o, steps) && last.public == multiset{} && (hop.None? || RetryFires in steps)
    requires Connected(g, o, v) && KeepsAt(v, steps)
    ensures v in last.nodes && last.nodes[v].held
  {
    FloodReachesEveryone(g, o, hop, steps, last);
    PathStaysIn(g, o, v);
    hide Run, Start, NetInv, Connected, HopAllowed, Path;
    if v == o {
      OriginStillHolds(g, o, hop, steps, last);
    } else {
      HeldIffSeen(g, o, hop, steps, last, v);
    }
  }

  lemma OriginStillHolds(g: Graph, o: Peer, hop: Option<Peer>, steps: seq<Step>, last: Net)
    requires GraphOk(g) && o in g && HopAllowed(g[o], None, hop) && Run(g, o, Start(g, o, hop), steps, last)
    requires KeptAtOrigin(o, steps)
    ensures o in last.nodes && last.nodes[o].held
  {
    StartKeeps(g, o, hop);
    RunKeeps(g, o, Start(g, o, hop), steps, last, hop.None?);
  }

  // ----- Traffic ---------------------------------------------------------------------------------------------

  function Degrees(g: Graph): map<Peer, int> { map v | v in g :: |g[v]| }

  function Unmarked(g: Graph, n: Net): map<Peer, int> {
    map v | v in g && v in n.nodes && !n.nodes[v].seen :: |g[v]|
  }

  /** Public copies on the wire, and those the nodes that have not flooded yet may still send. */
  ghost function Potential(g: Graph, o: Peer, n: Net): int
    requires o in g && o in n.nodes
  {
    |n.public| + MapSum(Unmarked(g, n)) + (if n.nodes[o].retry.Waiting? then |g[o]| else 0)
  }

  function PublicSteps(steps: seq<Step>): nat {
    if steps == [] then 0 else (if steps[0].PublicArrives? then 1 else 0) + PublicSteps(steps[1..])
  }

  lemma {:induction false} PacketCount(v: Peer, dest: set<Peer>)
    ensures |PacketsFrom(v, dest)| == |dest|
    decreases dest
  {
    if dest != {} {
      var p :| p in dest;
      PacketCount(v, dest - {p});
      assert (set q | q in dest :: Packet(v, q)) == (set q | q in dest - {p} :: Packet(v, q)) + {Packet(v, p)};
    }
  }

  /** What a node that reacts may owe: a first flood to its own peers, and no new retry. */
  ghost predicate Affordable(g: Graph, n: Net, v: Peer, r: Reaction) {
    && v in g && v in n.nodes
    && (n.nodes[v].seen ==> r.state.seen)
    && (!r.stemming && r.to != {} ==> r.to <= g[v] && r.state.seen && !n.nodes[v].seen)
    && (r.state.retry.Waiting? ==> n.nodes[v].retry.Waiting?)
  }

  lemma UnmarkedAfter(g: Graph, n: Net, v: Peer, r: Reaction)
    requires v in g && v in n.nodes && (n.nodes[v].seen ==> r.state.seen)
    ensures MapSum(Unmarked(g, Emit(n, v, r)))
         == MapSum(Unmarked(g, n)) - if r.state.seen && !n.nodes[v].seen then |g[v]| else 0
  {
    hide PacketsFrom;
    var m := Emit(n, v, r);
    if r.state.seen && !n.nodes[v].seen {
      assert Unmarked(g, m) == Unmarked(g, n) - {v};
      MapSumRemove(Unmarked(g, n), v);
    } else {
      assert Unmarked(g, m) == Unmarked(g, n);
    }
  }

  /** A node pays for its flood with its own degree, once. */
  lemma EmitCosts(g: Graph, o: Peer, n: Net, v: Peer, r: Reaction)
    requires o in g && o in n.nodes && Affordable(g, n, v, r)
    ensures Potential(g, o, Emit(n, v, r)) <= Potential(g, o, n)
  {
    UnmarkedAfter(g, n, v, r);
    PacketCount(v, r.to);
    SubsetIsSmaller(r.to, g[v]);
    EmitTouches(n, v, r, o);
    hide PacketsFrom, Unmarked;
  }

  lemma SubsetIsSmaller(a: set<Peer>, b: set<Peer>)
    ensures a <= b ==> |a| <= |b|
  {
    if a <= b {
      assert b == a + (b - a);
    }
  }

  lemma ReceiveIsAffordable(g: Graph, n: Net, p: Packet, stemming: bool, hop: Option<Peer>, room: bool)
    requires p.to in g && p.to in n.nodes
    ensures Affordable(g, n, p.to, Receive(n.nodes[p.to], g[p.to], p.sender, stemming, hop, room))
  {
  }

  lemma WireCosts(g: Graph, o: Peer, n: Net, m: Net)
    requires o in g && o in n.nodes && m == n.(stem := m.stem, public := m.public)
    ensures Potential(g, o, m) == Potential(g, o, n) - |n.public| + |m.public|
  {
    assert Unmarked(g, m) == Unmarked(g, n);
  }

  /** Every public arrival spends one unit of potential; no other step adds any. */
  lemma StepCosts(g: Graph, o: Peer, n: Net, s: Step)
    requires NetInv(g, o, n) && Enabled(g, o, n, s)
    ensures Potential(g, o, Take(n, o, g, s)) + (if s.PublicArrives? then 1 else 0) <= Potential(g, o, n)
  {
    hide Covered, SentByFlooders, GraphOk, PacketsFrom, Emit, Receive, Affordable, Potential, Unmarked, HopAllowed;
    match s
    case StemArrives(p, hop, room) =>
      var m := n.(stem := n.stem - multiset{p});
      WireCosts(g, o, n, m);
      ReceiveIsAffordable(g, m, p, true, hop, room);
      EmitCosts(g, o, m, p.to, Receive(n.nodes[p.to], g[p.to], p.sender, true, hop, room));
    case StemLost(p) =>
      WireCosts(g, o, n, n.(stem := n.stem - multiset{p}));
    case PublicArrives(p, room) =>
      var m := n.(public := n.public - multiset{p});
      WireCosts(g, o, n, m);
      ReceiveIsAffordable(g, m, p, false, None, room);
      EmitCosts(g, o, m, p.to, Receive(n.nodes[p.to], g[p.to], p.sender, false, None, room));
    case RetryFires =>
      RetryCosts(g, o, n);
    case Evicted(v) =>
      EvictionCosts(g, o, n, v);
  }

  lemma RetryCosts(g: Graph, o: Peer, n: Net)
    requires o in g && o in n.nodes && n.nodes[o].retry.Waiting?
    ensures Potential(g, o, Emit(n, o, Resend(n.nodes[o], g[o])).(forced := true)) == Potential(g, o, n)
  {
    PacketCount(o, g[o]);
    hide PacketsFrom;
    assert Unmarked(g, Emit(n, o, Resend(n.nodes[o], g[o])).(forced := true)) == Unmarked(g, n);
  }

  lemma EvictionCosts(g: Graph, o: Peer, n: Net, v: Peer)
    requires o in g && o in n.nodes && v in n.nodes
    ensures Potential(g, o, n.(nodes := n.nodes[v := n.nodes[v].(held := false)])) == Potential(g, o, n)
  {
    assert Unmarked(g, n.(nodes := n.nodes[v := n.nodes[v].(held := false)])) == Unmarked(g, n);
  }

  lemma {:induction false} RunCosts(g: Graph, o: Peer, n: Net, steps: seq<Step>, last: Net)
    requires NetInv(g, o, n) && Run(g, o, n, steps, last)
    ensures NetInv(g, o, last) && Potential(g, o, last) + PublicSteps(steps) <= Potential(g, o, n)
    decreases steps
  {
    if steps != [] {
      StepCosts(g, o, n, steps[0]);
      TakeKeeps(g, o, n, steps[0]);
      RunCosts(g, o, Take(n, o, g, steps[0]), steps[1..], last);
    }
  }

  /**
   In any run, however long the stem wanders, whatever is lost or evicted, no more public copies are
   handled than every node's degree, plus the originator's once more for the retry.
   */
  lemma FloodIsBounded(g: Graph, o: Peer, hop: Option<Peer>, steps: seq<Step>, last: Net)
    requires GraphOk(g) && o in g && HopAllowed(g[o], None, hop) && Run(g, o, Start(g, o, hop), steps, last)
    ensures PublicSteps(steps) + |last.public| <= MapSum(Degrees(g)) + |g[o]|
  {
    var start := Start(g, o, hop);
    StartKeeps(g, o, hop);
    RunCosts(g, o, start, steps, last);
    StartPotential(g, o, hop);
    hide Run, PublicSteps, Start, Covered, SentByFlooders, GraphOk, Degrees;
    MapSumNonNegative(Unmarked(g, last));
  }

  lemma StartPotential(g: Graph, o: Peer, hop: Option<Peer>)
    requires o in g
    ensures Potential(g, o, Start(g, o, hop)) == MapSum(Degrees(g)) + |g[o]|
  {
    var blank := Net(map v | v in g :: Local(v == o, false, Settled), multiset{}, multiset{}, false);
    var r := Originate(blank.nodes[o], g[o], hop);
    assert Unmarked(g, blank) == Degrees(g);
    UnmarkedAfter(g, blank, o, r);
    PacketCount(o, r.to);
    EmitTouches(blank, o, r, o);
    hide Unmarked, Degrees, PacketsFrom;
    assert Start(g, o, hop) == Emit(blank, o, r);
  }

  // ----- Why the originator must keep the item -----------------------------------------------------------------

  function Triangle(): Graph { map["o" := {"p", "q"}, "p" := {"o", "q"}, "q" := {"o", "p"}] }

  function OnTriangle(held: bool, retry: Retry, stem: multiset<Packet>): Net {
    Net(map["o" := Local(held, false, retry), "p" := Local(false, false, Settled), "q" := Local(false, false, Settled)],
        stem, multiset{}, false)
  }

  lemma StemHop(held: bool, retry: Retry, p: Packet, next: Peer)
    requires p.to in Triangle() && next in Triangle()[p.to] && next != p.sender && (p.to == "o" ==> !held)
    ensures Enabled(Triangle(), "o", OnTriangle(held, retry, multiset{p}), StemArrives(p, Some(next), true))
    ensures Take(OnTriangle(held, retry, multiset{p}), "o", Triangle(), StemArrives(p, Some(next), true))
         == OnTriangle(held, if p.to == "o" && retry.Waiting? && retry.target != Some(p.sender) then Settled else retry,
                       multiset{Packet(p.to, next)})
  {
    var n := OnTriangle(held, retry, multiset{p});
    var r := Receive(n.nodes[p.to], Triangle()[p.to], p.sender, true, Some(next), true);
    assert r == Reaction(EchoedBy(n.nodes[p.to], p.sender), {next}, true);
    OnePacket(p.to, next);
    assert n.stem - multiset{p} == multiset{};
    hide PacketsFrom, Receive;
  }

  lemma OnePacket(v: Peer, next: Peer)
    ensures PacketsFrom(v, {next}) == multiset{Packet(v, next)}
  {
    assert (set q | q in {next} :: Packet(v, q)) == {Packet(v, next)};
  }

  lemma TriangleStart()
    ensures Start(Triangle(), "o", Some("p")) == OnTriangle(true, Waiting(Some("p")), multiset{Packet("o", "p")})
  {
    OnePacket("o", "p");
    hide PacketsFrom;
  }

  lemma TriangleEnds(held: bool, retry: Retry, stem: multiset<Packet>, p: Packet)
    ensures Enabled(Triangle(), "o", OnTriangle(held, retry, stem), Evicted("o"))
    ensures Take(OnTriangle(held, retry, stem), "o", Triangle(), Evicted("o")) == OnTriangle(false, retry, stem)
    ensures Enabled(Triangle(), "o", OnTriangle(held, retry, multiset{p}), StemLost(p))
    ensures Take(OnTriangle(held, retry, multiset{p}), "o", Triangle(), StemLost(p)) == OnTriangle(held, retry, multiset{})
  {
  }

  /** The run below: evicted at "o" while stemmed to "p", then by "q" back to "o", on to "p", and lost. */
  lemma TriangleRun() returns (steps: seq<Step>)
    ensures Run(Triangle(), "o", Start(Triangle(), "o", Some("p")), steps, OnTriangle(false, Settled, multiset{}))
  {
    var g, waiting, last := Triangle(), Waiting(Some("p")), OnTriangle(false, Settled, multiset{});
    var op, pq, qo := Packet("o", "p"), Packet("p", "q"), Packet("q", "o");
    TriangleStart();
    TriangleEnds(true, waiting, multiset{op}, op);
    StemHop(false, waiting, op, "q");
    StemHop(false, waiting, pq, "o");
    StemHop(false, waiting, qo, "p");
    TriangleEnds(false, Settled, multiset{op}, op);
    hide Take, Enabled, Start, OnTriangle, Triangle, GraphOk;
    assert Run(g, "o", last, [], last);
    steps := RunStep(g, "o", OnTriangle(false, Settled, multiset{op}), StemLost(op), [], last);
    steps := RunStep(g, "o", OnTriangle(false, waiting, multiset{qo}), StemArrives(qo, Some("p"), true), steps, last);
    steps := RunStep(g, "o", OnTriangle(false, waiting, multiset{pq}), StemArrives(pq, Some("o"), true), steps, last);
    steps := RunStep(g, "o", OnTriangle(false, waiting, multiset{op}), StemArrives(op, Some("q"), true), steps, last);
    steps := RunStep(g, "o", OnTriangle(true, waiting, multiset{op}), Evicted("o"), steps, last);
  }

  ghost predicate Lost(g: Graph, o: Peer, hop: Option<Peer>, steps: seq<Step>, last: Net) {
    && GraphOk(g) && o in g && HopAllowed(g[o], None, hop) && Run(g, o, Start(g, o, hop), steps, last)
    && Quiet(last) && o in last.nodes && last.nodes[o].retry.Settled?
    && forall v :: v in g ==> !Flooded(o, last, v)
  }

  /**
   If the originator's mempool does drop the item, a stemmed copy that comes round to it counts as an
   echo, is handed on, and may then die: nobody has flooded it and nothing is left to send it again.
   */
  lemma EvictedOriginCanLoseIt()
    ensures exists g, o, hop, steps, last :: Lost(g, o, hop, steps, last)
  {
    var steps := TriangleRun();
    hide Run, Start;
    assert Lost(Triangle(), "o", Some("p"), steps, OnTriangle(false, Settled, multiset{}));
  }

  lemma RunStep(g: Graph, o: Peer, n: Net, s: Step, rest: seq<Step>, last: Net) returns (steps: seq<Step>)
    requires o in n.nodes && Enabled(g, o, n, s) && Run(g, o, Take(n, o, g, s), rest, last)
    ensures Run(g, o, n, steps, last)
  {
    steps := [s] + rest;
    assert steps[1..] == rest;
  }

  // ----- From where delivery still happens ---------------------------------------------------------------------

  /** Every public copy is on its way to a node of the graph. */
  predicate Addressed(g: Graph, n: Net) { forall p :: p in n.public ==> p.to in g }

  ghost predicate CanDeliver(g: Graph, o: Peer, n: Net) {
    exists steps, last :: Run(g, o, n, steps, last) && last.public == multiset{} && EveryoneFlooded(g, o, last)
  }

  lemma EmitAddresses(g: Graph, n: Net, v: Peer, r: Reaction)
    requires Addressed(g, n) && r.to <= g.Keys
    ensures Addressed(g, Emit(n, v, r))
  {
    hide PacketsFrom;
    forall q | q in Emit(n, v, r).public
      ensures q.to in g
    {
      PacketsFromSends(v, r.to, q);
    }
  }

  lemma ReceiveSendsToPeers(l: Local, peers: set<Peer>, sender: Peer, room: bool)
    ensures var r := Receive(l, peers, sender, false, None, room); r.to <= peers && (l.seen ==> r.state.seen)
  {
  }

  lemma ArrivalStays(g: Graph, o: Peer, n: Net, p: Packet)
    requires NetInv(g, o, n) && Addressed(g, n) && Flooded(o, n, o) && p in n.public
    ensures Enabled(g, o, n, PublicArrives(p, true))
    ensures var m := Take(n, o, g, PublicArrives(p, true)); Addressed(g, m) && Flooded(o, m, o)
  {
    hide Receive, Covered, SentByFlooders, PacketsFrom, Emit;
    var r := Receive(n.nodes[p.to], g[p.to], p.sender, false, None, true);
    var m := n.(public := n.public - multiset{p});
    ReceiveSendsToPeers(n.nodes[p.to], g[p.to], p.sender, true);
    assert Addressed(g, m);
    EmitAddresses(g, m, p.to, r);
    EmitTouches(m, p.to, r, o);
  }

  lemma PotentialNotNegative(g: Graph, o: Peer, n: Net)
    requires o in g && o in n.nodes
    ensures Potential(g, o, n) >= 0
  {
    MapSumNonNegative(Unmarked(g, n));
  }

  /** Public copies can always be handled until none is left. */
  lemma Drains(g: Graph, o: Peer, n: Net) returns (steps: seq<Step>, last: Net)
    requires NetInv(g, o, n) && Addressed(g, n) && Flooded(o, n, o)
    ensures Run(g, o, n, steps, last) && last.public == multiset{} && NetInv(g, o, last) && Flooded(o, last, o)
    decreases Potential(g, o, n)
  {
    if n.public == multiset{} {
      steps, last := [], n;
    } else {
      var p :| p in n.public;
      var s := PublicArrives(p, true);
      ArrivalStays(g, o, n, p);
      PotentialNotNegative(g, o, n);
      TakeKeeps(g, o, n, s);
      StepCosts(g, o, n, s);
      hide Take, Enabled, Covered, SentByFlooders, GraphOk, Potential, Flooded, Addressed;
      steps, last := Drains(g, o, Take(n, o, g, s));
      steps := RunStep(g, o, n, s, steps, last);
    }
  }

  lemma RetryDelivers(g: Graph, o: Peer, n: Net)
    requires NetInv(g, o, n) && n.public == multiset{} && n.nodes[o].retry.Waiting?
    ensures CanDeliver(g, o, n)
  {
    var m := Take(n, o, g, RetryFires);
    TakeKeeps(g, o, n, RetryFires);
    EmitAddresses(g, n, o, Resend(n.nodes[o], g[o]));
    assert Flooded(o, m, o) && Addressed(g, m);
    hide Take, Enabled, NetInv, Flooded, EveryoneFlooded, Addressed;
    var steps, last := Drains(g, o, m);
    QuietMeansFlooded(g, o, last);
    steps := RunStep(g, o, n, RetryFires, steps, last);
  }

  /** Nothing on the wire, nothing flooded by the originator, and nothing that would send it again. */
  ghost predicate DeadNet(o: Peer, n: Net) {
    Quiet(n) && o in n.nodes && n.nodes[o].retry.Settled? && !Flooded(o, n, o)
  }

  lemma {:induction false} DeadStays(g: Graph, o: Peer, n: Net, steps: seq<Step>, last: Net)
    requires DeadNet(o, n) && Run(g, o, n, steps, last)
    ensures DeadNet(o, last)
    decreases steps
  {
    if steps != [] {
      assert steps[0].Evicted?;
      DeadStays(g, o, Take(n, o, g, steps[0]), steps[1..], last);
    }
  }

  /**
   Whatever was lost, refused or evicted, the originator's own copy included: once nothing is in flight the
   item can still come to be flooded by every node connected to the originator exactly when the originator
   flooded it or still waits for an echo. Every other quiet state stays as it is.
   */
  lemma QuietCanDeliverIff(g: Graph, o: Peer, hop: Option<Peer>, steps: seq<Step>, last: Net)
    requires GraphOk(g) && o in g && HopAllowed(g[o], None, hop) && Run(g, o, Start(g, o, hop), steps, last) && Quiet(last)
    ensures o in last.nodes
    ensures CanDeliver(g, o, last) <==> Flooded(o, last, o) || last.nodes[o].retry.Waiting?
  {
    StartKeeps(g, o, hop);
    RunCosts(g, o, Start(g, o, hop), steps, last);
    assert o in last.nodes;
    hide NetInv, Start, Potential, Take, Enabled;
    if Flooded(o, last, o) {
      QuietMeansFlooded(g, o, last);
      assert Run(g, o, last, [], last);
    } else if last.nodes[o].retry.Waiting? {
      RetryDelivers(g, o, last);
    } else {
      assert Path(g, [o]) && Connected(g, o, o);
      forall more, end | Run(g, o, last, more, end)
        ensures !EveryoneFlooded(g, o, end)
      {
        DeadStays(g, o, last, more, end);
      }
    }
  }
}
