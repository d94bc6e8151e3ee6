/** Swarm chat as a flood over a fixed graph of connections. A packet in flight may be
    delivered at any later time, in any order. */
module ChatGossip {
  import opened Sorting
  import opened Finite

  type NodeId = string
  type MsgId = string

  const MAX_SEEN := 500

  datatype Edge = Edge(src: NodeId, dst: NodeId)
  datatype Packet = Packet(edge: Edge, id: MsgId)
  datatype Delivery = Delivery(node: NodeId, id: MsgId)

  // ---- One node ----

  /** Adds the id; over the cap the set pops an element of its own choosing. */
  function Remember(seen: set<MsgId>, id: MsgId, popped: MsgId): set<MsgId> {
    var grown := seen + {id};
    if |grown| > MAX_SEEN then grown - {popped} else grown
  }

  /** The popped element is one the set holds. */
  predicate CanPop(seen: set<MsgId>, id: MsgId, popped: MsgId) {
    |seen + {id}| > MAX_SEEN ==> popped in seen + {id}
  }

  function Broadcast(self: NodeId, peers: set<NodeId>, id: MsgId): set<Packet> {
    set v | v in peers :: Packet(Edge(self, v), id)
  }

  /** One packet per receiver, in order. */
  function Packets(self: NodeId, receivers: seq<NodeId>, id: MsgId): seq<Packet> {
    seq(|receivers|, i requires 0 <= i < |receivers| => Packet(Edge(self, receivers[i]), id))
  }

  lemma PacketsFromHead(self: NodeId, head: NodeId, rest: seq<NodeId>, id: MsgId)
    ensures Packets(self, [head] + rest, id) == [Packet(Edge(self, head), id)] + Packets(self, rest, id)
  {
  }

  function NoneFails(): NodeId -> bool {
    (v: NodeId) => true
  }

  /** How a node's chat state and output react to a message. */
  datatype Reaction = Reaction(seen: set<MsgId>, delivers: bool, out: set<Packet>)

  function OnReceive(self: NodeId, peers: set<NodeId>, seen: set<MsgId>, id: MsgId, popped: MsgId): Reaction {
    if id in seen then Reaction(seen, false, {})
    else Reaction(Remember(seen, id, popped), true, Broadcast(self, peers, id))
  }

  function OnSend(self: NodeId, peers: set<NodeId>, seen: set<MsgId>, id: MsgId, popped: MsgId): Reaction {
    Reaction(Remember(seen, id, popped), true, Broadcast(self, peers, id))
  }

  class ChatNode {
    const self: NodeId
    var connections: seq<NodeId>
    var seen: set<MsgId>

    constructor (self: NodeId, connections: seq<NodeId>)
      ensures this.self == self && this.connections == connections && seen == {}
    {
      this.self, this.connections, seen := self, connections, {};
    }

    function Peers(): set<NodeId>
      reads this
    {
      set v | v in connections
    }

    /** Sends along every connection in order and counts the sends that did not raise. */
    method BroadcastToPeers(id: MsgId, sends: NodeId -> bool) returns (sent: nat, out: seq<Packet>)
      ensures out == Packets(self, Filter(sends, connections), id)
      ensures sent == |Filter(sends, connections)|
    {
      sent, out := 0, [];
      for i := 0 to |connections|
        invariant out + Packets(self, Filter(sends, connections[i..]), id) ==
                  Packets(self, Filter(sends, connections), id)
        invariant sent == |out|
      {
        assert connections[i..][1..] == connections[i + 1..];
        PacketsFromHead(self, connections[i], Filter(sends, connections[i + 1..]), id);
        if sends(connections[i]) {
          out := out + [Packet(Edge(self, connections[i]), id)];
          sent := sent + 1;
        }
      }
    }

    /** When no send fails, the packets are those of the network's broadcast. */
    lemma AllSendsSucceed(id: MsgId)
      ensures (set p | p in Packets(self, Filter(NoneFails(), connections), id)) == Broadcast(self, Peers(), id)
    {
      var out := Packets(self, connections, id);
      FilterKeepsAll(NoneFails(), connections);
      forall p | p in Broadcast(self, Peers(), id)
        ensures p in out
      {
        var i :| 0 <= i < |connections| && connections[i] == p.edge.dst;
        assert out[i] == p;
      }
    }

    method HandleTcpChat(id: MsgId, popped: MsgId) returns (r: Reaction)
      requires CanPop(seen, id, popped)
      modifies this`seen
      ensures r == OnReceive(self, Peers(), old(seen), id, popped) && seen == r.seen
    {
      if id in seen {
        return Reaction(seen, false, {});
      }
      seen := seen + {id};
      if |seen| > MAX_SEEN {
        seen := seen - {popped};
      }
      var sent, out := BroadcastToPeers(id, NoneFails());
      AllSendsSucceed(id);
      return Reaction(seen, true, set p | p in out);
    }

    method WebsocketChat(id: MsgId, popped: MsgId) returns (r: Reaction)
      requires CanPop(seen, id, popped)
      modifies this`seen
      ensures r == OnSend(self, Peers(), old(seen), id, popped) && seen == r.seen
    {
      seen := seen + {id};
      if |seen| > MAX_SEEN {
        seen := seen - {popped};
      }
      var sent, out := BroadcastToPeers(id, NoneFails());
      AllSendsSucceed(id);
      return Reaction(seen, true, set p | p in out);
    }
  }

  // ---- The network ----

  datatype Network = Network(
    peers: map<NodeId, set<NodeId>>,
    seen: map<NodeId, set<MsgId>>,
    origin: map<MsgId, NodeId>,          // where each message was typed
    delivered: multiset<Delivery>,
    flying: multiset<Packet>,
    sent: map<MsgId, multiset<Edge>>)    // every send so far, by message

  datatype Step =
    | Originate(node: NodeId, id: MsgId, popped: MsgId)
    | Deliver(packet: Packet, popped: MsgId)

  ghost predicate WellFormedGraph(peers: map<NodeId, set<NodeId>>) {
    forall n, v :: n in peers && v in peers[n] ==> v in peers
  }

  function Init(peers: map<NodeId, set<NodeId>>): Network {
    Network(peers, map n | n in peers :: {}, map[], multiset{}, multiset{}, map[])
  }

  /** Message ids are fresh; only packets in flight arrive. */
  predicate Enabled(s: Network, step: Step) {
    s.seen.Keys == s.peers.Keys &&
    match step
    case Originate(n, id, popped) => n in s.peers && id !in s.origin && CanPop(s.seen[n], id, popped)
    case Deliver(p, popped) =>
      p in s.flying && p.edge.dst in s.peers && p.id in s.sent && CanPop(s.seen[p.edge.dst], p.id, popped)
  }

  function EdgesOf(out: set<Packet>): set<Edge> {
    set p | p in out :: p.edge
  }

  function Apply(s: Network, n: NodeId, id: MsgId, r: Reaction, flying: multiset<Packet>): Network
    requires id in s.sent
  {
    s.(seen := s.seen[n := r.seen],
       delivered := if r.delivers then s.delivered + multiset{Delivery(n, id)} else s.delivered,
       flying := flying + multiset(r.out),
       sent := s.sent[id := s.sent[id] + multiset(EdgesOf(r.out))])
  }

  function Next(s: Network, step: Step): Network
    requires Enabled(s, step)
  {
    match step
    case Originate(n, id, popped) =>
      Apply(s.(origin := s.origin[id := n], sent := s.sent[id := multiset{}]), n, id,
            OnSend(n, s.peers[n], s.seen[n], id, popped), s.flying)
    case Deliver(p, popped) =>
      var n := p.edge.dst;
      Apply(s, n, p.id, OnReceive(n, s.peers[n], s.seen[n], p.id, popped), s.flying - multiset{p})
  }

  /** A run of enabled steps. */
  ghost predicate Runs(s: Network, steps: seq<Step>, t: Network)
    decreases |steps|
  {
    if steps == [] then s == t
    else Enabled(s, steps[0]) && Runs(Next(s, steps[0]), steps[1..], t)
  }

  // ---- The invariant while at most MAX_SEEN messages exist ----

  ghost predicate Saw(s: Network, n: NodeId, id: MsgId) {
    n in s.seen && id in s.seen[n]
  }

  ghost predicate Connected(s: Network, n: NodeId, v: NodeId) {
    n in s.peers && v in s.peers[n]
  }

  function AllEdges(peers: map<NodeId, set<NodeId>>): set<Edge> {
    set n, v | n in peers && v in peers[n] :: Edge(n, v)
  }

  /** The connections of the nodes that saw the message. */
  function SeenEdges(s: Network, id: MsgId): set<Edge> {
    set e | e in AllEdges(s.peers) && e.src in s.seen && id in s.seen[e.src]
  }

  ghost predicate Shape(s: Network) {
    && WellFormedGraph(s.peers) && s.seen.Keys == s.peers.Keys && s.sent.Keys == s.origin.Keys
    && (forall n, id :: Saw(s, n, id) ==> id in s.origin)
    && (forall id :: id in s.origin ==> Saw(s, s.origin[id], id))
  }

  ghost predicate DeliveredOnce(s: Network) {
    forall n, id :: s.delivered[Delivery(n, id)] == if Saw(s, n, id) then 1 else 0
  }

  ghost predicate SentOncePerEdge(s: Network) {
    forall id :: id in s.sent ==> s.sent[id] == multiset(SeenEdges(s, id))
  }

  ghost predicate FlyingComesFromSeers(s: Network) {
    forall p :: p in s.flying ==> Saw(s, p.edge.src, p.id) && Connected(s, p.edge.src, p.edge.dst)
  }

  /** Across every connection of a seer the message has arrived or is on its way. */
  ghost predicate FrontierIsFlying(s: Network) {
    forall n, v, id :: Saw(s, n, id) && Connected(s, n, v) ==>
      Saw(s, v, id) || Packet(Edge(n, v), id) in s.flying
  }

  ghost predicate Path(peers: map<NodeId, set<NodeId>>, path: seq<NodeId>) {
    path != [] && forall i :: 0 <= i < |path| - 1 ==> path[i] in peers && path[i + 1] in peers[path[i]]
  }

  ghost predicate Reachable(peers: map<NodeId, set<NodeId>>, from: NodeId, to: NodeId) {
    exists path :: Path(peers, path) && path[0] == from && path[|path| - 1] == to
  }

  ghost predicate SeersAreReachable(s: Network) {
    forall n, id :: Saw(s, n, id) && id in s.origin ==> Reachable(s.peers, s.origin[id], n)
  }

  ghost predicate Flood(s: Network) {
    && DeliveredOnce(s) && SentOncePerEdge(s) && FlyingComesFromSeers(s)
    && FrontierIsFlying(s) && SeersAreReachable(s)
  }

  ghost predicate Inv(s: Network) {
    Shape(s) && Flood(s)
  }

  // ---- A node sees a message for the first time ----

  function Arrive(s: Network, n: NodeId, id: MsgId, flying: multiset<Packet>): Network
    requires n in s.peers && n in s.seen && id in s.sent
  {
    Apply(s, n, id, Reaction(s.seen[n] + {id}, true, Broadcast(n, s.peers[n], id)), flying)
  }

  /** What leaves the network on an arrival is at most the packet that arrived. */
  ghost predicate Consumed(s: Network, flying: multiset<Packet>, n: NodeId, id: MsgId) {
    && flying <= s.flying
    && (forall q :: q in s.flying ==> q in flying || (q.edge.dst == n && q.id == id))
  }

  lemma ArriveSaw(s: Network, n: NodeId, id: MsgId, flying: multiset<Packet>)
    requires n in s.peers && n in s.seen && id in s.sent
    ensures forall a, m :: Saw(Arrive(s, n, id, flying), a, m) <==> Saw(s, a, m) || (a == n && m == id)
  {
  }

  lemma ArriveDeliversOnce(s: Network, n: NodeId, id: MsgId, flying: multiset<Packet>)
    requires n in s.peers && n in s.seen && id in s.sent && !Saw(s, n, id) && DeliveredOnce(s)
    ensures DeliveredOnce(Arrive(s, n, id, flying))
  {
    var t := Arrive(s, n, id, flying);
    ArriveSaw(s, n, id, flying);
    forall a, m
      ensures t.delivered[Delivery(a, m)] == if Saw(t, a, m) then 1 else 0
    {
      assert t.delivered[Delivery(a, m)] == s.delivered[Delivery(a, m)] + if a == n && m == id then 1 else 0;
    }
  }

  lemma ArriveSendsOnce(s: Network, n: NodeId, id: MsgId, flying: multiset<Packet>)
    requires n in s.peers && n in s.seen && id in s.sent && !Saw(s, n, id) && SentOncePerEdge(s)
    ensures SentOncePerEdge(Arrive(s, n, id, flying))
  {
    var t := Arrive(s, n, id, flying);
    var added := EdgesOf(Broadcast(n, s.peers[n], id));
    SeenEdgesGrow(s, n, id, flying);
    assert multiset(SeenEdges(s, id) + added) == multiset(SeenEdges(s, id)) + multiset(added);
  }

  lemma SeenEdgesGrow(s: Network, n: NodeId, id: MsgId, flying: multiset<Packet>)
    requires n in s.peers && n in s.seen && id in s.sent && !Saw(s, n, id)
    ensures var t, added := Arrive(s, n, id, flying), EdgesOf(Broadcast(n, s.peers[n], id));
            && SeenEdges(t, id) == SeenEdges(s, id) + added && SeenEdges(s, id) !! added
            && forall m :: m != id ==> SeenEdges(t, m) == SeenEdges(s, m)
  {
    FreshEdges(s, n, id);
  }

  /** A broadcast covers exactly the node's connections. */
  lemma FreshEdges(s: Network, n: NodeId, id: MsgId)
    requires n in s.peers
    ensures forall e :: e in EdgesOf(Broadcast(n, s.peers[n], id)) <==> e.src == n && e.dst in s.peers[n]
  {
    forall e
      ensures e in EdgesOf(Broadcast(n, s.peers[n], id)) <==> e.src == n && e.dst in s.peers[n]
    {
      if e.src == n && e.dst in s.peers[n] {
        assert Packet(Edge(n, e.dst), id) in Broadcast(n, s.peers[n], id);
      }
    }
  }

  lemma ArriveKeepsFlying(s: Network, n: NodeId, id: MsgId, flying: multiset<Packet>)
    requires n in s.peers && n in s.seen && id in s.sent && Consumed(s, flying, n, id)
    requires FlyingComesFromSeers(s)
    ensures FlyingComesFromSeers(Arrive(s, n, id, flying))
  {
    var t := Arrive(s, n, id, flying);
    ArriveSaw(s, n, id, flying);
    forall p | p in t.flying
      ensures Saw(t, p.edge.src, p.id) && Connected(t, p.edge.src, p.edge.dst)
    {
      assert p in flying || p in Broadcast(n, s.peers[n], id);
      assert p in flying ==> p in s.flying;
    }
  }

  lemma ArriveKeepsFrontier(s: Network, n: NodeId, id: MsgId, flying: multiset<Packet>)
    requires n in s.peers && n in s.seen && id in s.sent && Consumed(s, flying, n, id)
    requires FrontierIsFlying(s)
    ensures FrontierIsFlying(Arrive(s, n, id, flying))
  {
    var t := Arrive(s, n, id, flying);
    ArriveSaw(s, n, id, flying);
    forall a, v, m | Saw(t, a, m) && Connected(t, a, v)
      ensures Saw(t, v, m) || Packet(Edge(a, v), m) in t.flying
    {
      var q := Packet(Edge(a, v), m);
      if a == n && m == id {
        assert q in Broadcast(n, s.peers[n], id);
      } else if !Saw(s, v, m) {
        assert q in s.flying;
      }
    }
  }

  lemma ArriveKeepsReachability(s: Network, n: NodeId, id: MsgId, flying: multiset<Packet>)
    requires n in s.peers && n in s.seen && id in s.sent && SeersAreReachable(s)
    requires id in s.origin && Reachable(s.peers, s.origin[id], n)
    ensures SeersAreReachable(Arrive(s, n, id, flying))
  {
    ArriveSaw(s, n, id, flying);
  }

  lemma ReachableExtends(peers: map<NodeId, set<NodeId>>, from: NodeId, n: NodeId, v: NodeId)
    requires Reachable(peers, from, n) && n in peers && v in peers[n]
    ensures Reachable(peers, from, v)
  {
    var path :| Path(peers, path) && path[0] == from && path[|path| - 1] == n;
    var longer := path + [v];
    assert Path(peers, longer) && longer[0] == from && longer[|longer| - 1] == v;
  }

  lemma ReachableSelf(peers: map<NodeId, set<NodeId>>, n: NodeId)
    ensures Reachable(peers, n, n)
  {
    assert Path(peers, [n]) && [n][0] == n && [n][|[n]| - 1] == n;
  }

  /** While few enough messages exist, nothing is ever popped. */
  lemma NothingIsPopped(s: Network, n: NodeId, id: MsgId, popped: MsgId, ids: set<MsgId>)
    requires Shape(s) && n in s.seen && |ids| <= MAX_SEEN && s.origin.Keys <= ids && id in ids
    ensures Remember(s.seen[n], id, popped) == s.seen[n] + {id}
  {
    forall m | m in s.seen[n]
      ensures m in ids
    {
      assert Saw(s, n, m);
    }
    SubsetSize(s.seen[n] + {id}, ids);
  }

  lemma ArriveKeepsFlood(s: Network, n: NodeId, id: MsgId, flying: multiset<Packet>)
    requires n in s.peers && n in s.seen && id in s.sent && id in s.origin && !Saw(s, n, id)
    requires Flood(s) && Consumed(s, flying, n, id) && Reachable(s.peers, s.origin[id], n)
    ensures Flood(Arrive(s, n, id, flying))
  {
    ArriveDeliversOnce(s, n, id, flying);
    ArriveSendsOnce(s, n, id, flying);
    ArriveKeepsFlying(s, n, id, flying);
    ArriveKeepsFrontier(s, n, id, flying);
    ArriveKeepsReachability(s, n, id, flying);
  }

  /** A message just typed, before anybody has seen it. */
  function Typed(s: Network, n: NodeId, id: MsgId): Network {
    s.(origin := s.origin[id := n], sent := s.sent[id := multiset{}])
  }

  lemma TypedKeepsFlood(s: Network, n: NodeId, id: MsgId)
    requires Inv(s) && n in s.peers && id !in s.origin
    ensures Flood(Typed(s, n, id)) && !Saw(Typed(s, n, id), n, id)
  {
    var s1 := Typed(s, n, id);
    assert forall a, m :: Saw(s1, a, m) <==> Saw(s, a, m);
    forall e
      ensures e !in SeenEdges(s1, id)
    {
      assert !Saw(s, e.src, id);
    }
    assert SeenEdges(s1, id) == {};
    assert forall m :: SeenEdges(s1, m) == SeenEdges(s, m);
  }

  /** The ids a node saw are known, and every known id was seen where it was typed. */
  lemma ArriveKeepsShape(s: Network, n: NodeId, id: MsgId, flying: multiset<Packet>)
    requires n in s.peers && n in s.seen && id in s.sent && id in s.origin
    requires WellFormedGraph(s.peers) && s.seen.Keys == s.peers.Keys && s.sent.Keys == s.origin.Keys
    requires forall a, m :: Saw(s, a, m) ==> m in s.origin
    requires forall m :: m in s.origin ==> Saw(s, s.origin[m], m) || (m == id && s.origin[m] == n)
    ensures Shape(Arrive(s, n, id, flying))
  {
    ArriveSaw(s, n, id, flying);
  }

  lemma OriginateIsArrive(s: Network, n: NodeId, id: MsgId, popped: MsgId)
    requires Shape(s) && Enabled(s, Originate(n, id, popped)) && |s.origin| < MAX_SEEN
    ensures Next(s, Originate(n, id, popped)) == Arrive(Typed(s, n, id), n, id, s.flying)
    ensures Shape(Next(s, Originate(n, id, popped)))
  {
    var s1 := Typed(s, n, id);
    NothingIsPopped(s, n, id, popped, s1.origin.Keys);
    assert forall a, m :: Saw(s1, a, m) <==> Saw(s, a, m);
    ArriveKeepsShape(s1, n, id, s.flying);
  }

  lemma OriginateKeepsInv(s: Network, n: NodeId, id: MsgId, popped: MsgId)
    requires Inv(s) && Enabled(s, Originate(n, id, popped)) && |s.origin| < MAX_SEEN
    ensures Inv(Next(s, Originate(n, id, popped)))
  {
    OriginateIsArrive(s, n, id, popped);
    TypedKeepsFlood(s, n, id);
    ReachableSelf(s.peers, n);
    ArriveKeepsFlood(Typed(s, n, id), n, id, s.flying);
  }

  lemma DeliverFreshIsArrive(s: Network, p: Packet, popped: MsgId)
    requires Shape(s) && Enabled(s, Deliver(p, popped)) && |s.origin| <= MAX_SEEN
    requires !Saw(s, p.edge.dst, p.id)
    ensures Next(s, Deliver(p, popped)) == Arrive(s, p.edge.dst, p.id, s.flying - multiset{p})
    ensures Shape(Next(s, Deliver(p, popped)))
  {
    NothingIsPopped(s, p.edge.dst, p.id, popped, s.origin.Keys);
    ArriveKeepsShape(s, p.edge.dst, p.id, s.flying - multiset{p});
  }

  lemma DeliverFreshKeepsFlood(s: Network, p: Packet)
    requires Inv(s) && p in s.flying && !Saw(s, p.edge.dst, p.id)
    requires p.edge.dst in s.peers && p.edge.dst in s.seen && p.id in s.sent
    ensures Flood(Arrive(s, p.edge.dst, p.id, s.flying - multiset{p}))
  {
    assert Saw(s, p.edge.src, p.id) && Connected(s, p.edge.src, p.edge.dst);
    ReachableExtends(s.peers, s.origin[p.id], p.edge.src, p.edge.dst);
    ArriveKeepsFlood(s, p.edge.dst, p.id, s.flying - multiset{p});
  }

  lemma DeliverEchoDropsPacket(s: Network, p: Packet, popped: MsgId)
    requires Enabled(s, Deliver(p, popped)) && Saw(s, p.edge.dst, p.id)
    ensures Next(s, Deliver(p, popped)) == s.(flying := s.flying - multiset{p})
  {
    assert s.seen[p.edge.dst := s.seen[p.edge.dst]] == s.seen;
    assert s.sent[p.id] + multiset(EdgesOf({})) == s.sent[p.id];
    assert s.sent[p.id := s.sent[p.id]] == s.sent;
    assert s.flying - multiset{p} + multiset{} == s.flying - multiset{p};
  }

  lemma DroppingEchoKeepsInv(s: Network, p: Packet)
    requires Inv(s) && Saw(s, p.edge.dst, p.id)
    ensures Inv(s.(flying := s.flying - multiset{p}))
  {
    var t := s.(flying := s.flying - multiset{p});
    assert forall n, id :: Saw(t, n, id) <==> Saw(s, n, id);
    assert forall id :: SeenEdges(t, id) == SeenEdges(s, id);
    assert forall q :: q in t.flying ==> q in s.flying;
    assert forall q :: q in s.flying && q != p ==> q in t.flying;
  }

  lemma NextKeepsInv(s: Network, step: Step)
    requires Inv(s) && Enabled(s, step) && |Next(s, step).origin| <= MAX_SEEN
    ensures Inv(Next(s, step))
  {
    match step {
      case Originate(n, id, popped) =>
        assert |s.origin[id := n]| == |s.origin| + 1;
        OriginateKeepsInv(s, n, id, popped);
      case Deliver(p, popped) =>
        if Saw(s, p.edge.dst, p.id) {
          DeliverEchoDropsPacket(s, p, popped);
          DroppingEchoKeepsInv(s, p);
        } else {
          DeliverFreshIsArrive(s, p, popped);
          DeliverFreshKeepsFlood(s, p);
        }
    }
  }

  lemma InitHasInv(peers: map<NodeId, set<NodeId>>)
    requires WellFormedGraph(peers)
    ensures Inv(Init(peers))
  {
  }

  lemma NextKeepsOrigins(s: Network, step: Step)
    requires Enabled(s, step)
    ensures |s.origin| <= |Next(s, step).origin| && Next(s, step).peers == s.peers
  {
    if step.Originate? {
      assert |s.origin[step.id := step.node]| == |s.origin| + 1;
    }
  }

  lemma {:induction false} RunsKeepInv(s: Network, steps: seq<Step>, t: Network)
    requires Inv(s) && Runs(s, steps, t) && |t.origin| <= MAX_SEEN
    ensures Inv(t) && |s.origin| <= |t.origin| && t.peers == s.peers
    decreases |steps|
  {
    if steps != [] {
      NextKeepsOrigins(s, steps[0]);
      RunsOnlyAddOrigins(Next(s, steps[0]), steps[1..], t);
      NextKeepsInv(s, steps[0]);
      RunsKeepInv(Next(s, steps[0]), steps[1..], t);
    }
  }

  lemma {:induction false} RunsOnlyAddOrigins(s: Network, steps: seq<Step>, t: Network)
    requires Runs(s, steps, t)
    ensures |s.origin| <= |t.origin|
    decreases |steps|
  {
    if steps != [] {
      NextKeepsOrigins(s, steps[0]);
      RunsOnlyAddOrigins(Next(s, steps[0]), steps[1..], t);
    }
  }

  // ---- What every run promises ----

  /** In every run with at most MAX_SEEN messages no node delivers a message twice, and no
      message crosses a connection twice, so its sends never exceed the connections. */
  lemma FloodDeliversAtMostOnce(peers: map<NodeId, set<NodeId>>, steps: seq<Step>, t: Network)
    requires WellFormedGraph(peers) && Runs(Init(peers), steps, t) && |t.origin| <= MAX_SEEN
    ensures forall n, id :: t.delivered[Delivery(n, id)] <= 1
    ensures forall id, e :: id in t.sent ==> t.sent[id][e] <= 1
    ensures forall id :: id in t.sent ==> |t.sent[id]| <= |AllEdges(peers)|
  {
    InitHasInv(peers);
    RunsKeepInv(Init(peers), steps, t);
    forall id | id in t.sent
      ensures |t.sent[id]| <= |AllEdges(peers)|
    {
      SendsAreBounded(t, id);
    }
    forall id, e | id in t.sent
      ensures t.sent[id][e] <= 1
    {
      SendsAreBounded(t, id);
    }
  }

  lemma SendsAreBounded(t: Network, id: MsgId)
    requires SentOncePerEdge(t) && id in t.sent
    ensures |t.sent[id]| <= |AllEdges(t.peers)|
    ensures forall e :: t.sent[id][e] <= 1
  {
    SubsetSize(SeenEdges(t, id), AllEdges(t.peers));
  }

  ghost predicate Quiet(s: Network, id: MsgId) {
    forall p :: p in s.flying ==> p.id != id
  }

  lemma {:induction false} SeenAlongPath(s: Network, id: MsgId, path: seq<NodeId>)
    requires Inv(s) && Quiet(s, id) && Path(s.peers, path) && Saw(s, path[0], id)
    ensures Saw(s, path[|path| - 1], id)
    decreases |path|
  {
    if |path| > 1 {
      assert path[0] in s.peers && path[0 + 1] in s.peers[path[0]];
      assert Connected(s, path[0], path[1]);
      assert Packet(Edge(path[0], path[1]), id) !in s.flying;
      forall i | 0 <= i < |path[1..]| - 1
        ensures path[1..][i] in s.peers && path[1..][i + 1] in s.peers[path[1..][i]]
      {
        assert path[i + 1] in s.peers && path[i + 1 + 1] in s.peers[path[i + 1]];
      }
      SeenAlongPath(s, id, path[1..]);
    }
  }

  /** When no copy of a message is in flight, exactly the nodes reachable from its origin have
      delivered it, each exactly once. */
  lemma QuietFloodReachedEverybody(peers: map<NodeId, set<NodeId>>, steps: seq<Step>, t: Network, id: MsgId)
    requires WellFormedGraph(peers) && Runs(Init(peers), steps, t) && |t.origin| <= MAX_SEEN
    requires id in t.origin && Quiet(t, id)
    ensures forall n :: t.delivered[Delivery(n, id)] == if Reachable(peers, t.origin[id], n) then 1 else 0
  {
    InitHasInv(peers);
    RunsKeepInv(Init(peers), steps, t);
    forall n
      ensures Saw(t, n, id) <==> Reachable(peers, t.origin[id], n)
    {
      if Reachable(peers, t.origin[id], n) {
        var path :| Path(peers, path) && path[0] == t.origin[id] && path[|path| - 1] == n;
        SeenAlongPath(t, id, path);
      }
    }
  }

  // ---- Termination ----

  /** The sends that unseen messages may still cause. */
  function Unsent(s: Network): set<Packet> {
    set e, id | e in AllEdges(s.peers) && id in s.origin && (e.src !in s.seen || id !in s.seen[e.src]) :: Packet(e, id)
  }

  function Measure(s: Network): nat {
    |s.flying| + |Unsent(s)|
  }

  /** Every delivery lowers the measure by exactly one. */
  lemma DeliveryLowersMeasure(s: Network, p: Packet, popped: MsgId)
    requires Inv(s) && Enabled(s, Deliver(p, popped)) && |s.origin| <= MAX_SEEN
    ensures Measure(Next(s, Deliver(p, popped))) == Measure(s) - 1
  {
    if Saw(s, p.edge.dst, p.id) {
      DeliverEchoDropsPacket(s, p, popped);
      assert Unsent(s.(flying := s.flying - multiset{p})) == Unsent(s);
    } else {
      DeliverFreshIsArrive(s, p, popped);
      ArrivalMeasure(s, p.edge.dst, p.id, s.flying - multiset{p});
    }
  }

  /** A broadcast moves packets from unsent to flying. */
  lemma ArrivalMeasure(s: Network, n: NodeId, id: MsgId, flying: multiset<Packet>)
    requires n in s.peers && n in s.seen && id in s.sent && id in s.origin && !Saw(s, n, id)
    ensures Measure(Arrive(s, n, id, flying)) == |flying| + |Unsent(s)|
  {
    var out := Broadcast(n, s.peers[n], id);
    FreshUnsent(s, Arrive(s, n, id, flying), n, id);
    assert |flying + multiset(out)| == |flying| + |out|;
    assert |Unsent(s) - out| == |Unsent(s)| - |out|;
  }

  lemma FreshUnsent(s: Network, t: Network, n: NodeId, id: MsgId)
    requires n in s.peers && n in s.seen && id in s.origin && !Saw(s, n, id)
    requires t.peers == s.peers && t.origin == s.origin && t.seen == s.seen[n := s.seen[n] + {id}]
    ensures Broadcast(n, s.peers[n], id) <= Unsent(s)
    ensures Unsent(t) == Unsent(s) - Broadcast(n, s.peers[n], id)
  {
    forall q
      ensures q in Broadcast(n, s.peers[n], id) <==> q.edge.src == n && q.edge.dst in s.peers[n] && q.id == id
    {
      if q.edge.src == n && q.edge.dst in s.peers[n] && q.id == id {
        assert q == Packet(Edge(n, q.edge.dst), id);
      }
    }
    forall q
      ensures q in Unsent(s) <==>
              q.edge in AllEdges(s.peers) && q.id in s.origin && (q.edge.src !in s.seen || q.id !in s.seen[q.edge.src])
      ensures q in Unsent(t) <==>
              q.edge in AllEdges(s.peers) && q.id in s.origin && (q.edge.src !in t.seen || q.id !in t.seen[q.edge.src])
    {
      assert q == Packet(q.edge, q.id);
    }
  }

  predicate OnlyDeliveries(steps: seq<Step>) {
    steps == [] || (steps[0].Deliver? && OnlyDeliveries(steps[1..]))
  }

  /** With no new messages typed a run has exactly as many steps as the measure drops. */
  lemma {:induction false} FloodStops(s: Network, steps: seq<Step>, t: Network)
    requires Inv(s) && |s.origin| <= MAX_SEEN && Runs(s, steps, t)
    requires OnlyDeliveries(steps)
    ensures |steps| == Measure(s) - Measure(t) && Inv(t) && t.origin == s.origin
    decreases |steps|
  {
    if steps != [] {
      DeliveryLowersMeasure(s, steps[0].packet, steps[0].popped);
      NextKeepsInv(s, steps[0]);
      FloodStops(Next(s, steps[0]), steps[1..], t);
    }
  }

  /** While anything is in flight another delivery is possible. */
  lemma SomethingCanArrive(t: Network) returns (step: Step)
    requires Inv(t) && t.flying != multiset{}
    ensures step.Deliver? && Enabled(t, step)
  {
    var p := PickFromBag(t.flying);
    assert Saw(t, p.edge.src, p.id) && Connected(t, p.edge.src, p.edge.dst);
    step := Deliver(p, p.id);
  }

  // ---- Beyond MAX_SEEN messages ----

  /** A node that saw p's message, still has a copy of it coming in, and has as many fresh
      ids at hand as it takes to overflow its set by one. */
  ghost predicate NearOverflow(s: Network, n: NodeId, p: Packet, ids: seq<MsgId>) {
    && s.seen.Keys == s.peers.Keys && n in s.peers && p.edge.dst == n && p in s.flying && p.id in s.sent
    && p.id in s.seen[n] && s.seen[n] <= s.origin.Keys
    && (forall i :: 0 <= i < |ids| ==> ids[i] !in s.origin)
    && (forall i, j :: 0 <= i < j < |ids| ==> ids[i] != ids[j])
    && |ids| > 0 && |s.seen[n]| + |ids| == MAX_SEEN + 1
  }

  lemma LastIdOverflows(s: Network, n: NodeId, p: Packet, id: MsgId)
    requires NearOverflow(s, n, p, [id])
    ensures Enabled(s, Originate(n, id, p.id))
    ensures var s1 := Next(s, Originate(n, id, p.id));
            && Enabled(s1, Deliver(p, id))
            && var t := Next(s1, Deliver(p, id));
            && t.delivered[Delivery(n, p.id)] == s.delivered[Delivery(n, p.id)] + 1
            && t.origin == s.origin[id := n] && n in t.peers && t.seen.Keys == t.peers.Keys
  {
    assert [id][0] == id;
    var s1 := Next(s, Originate(n, id, p.id));
    assert |s.seen[n] + {id}| == MAX_SEEN + 1;
    assert s1.seen[n] == s.seen[n] + {id} - {p.id};
    assert p in s1.flying;
  }

  lemma EarlierIdFits(s: Network, n: NodeId, p: Packet, ids: seq<MsgId>)
    requires NearOverflow(s, n, p, ids) && |ids| > 1
    ensures Enabled(s, Originate(n, ids[0], p.id))
    ensures NearOverflow(Next(s, Originate(n, ids[0], p.id)), n, p, ids[1..])
    ensures Next(s, Originate(n, ids[0], p.id)).origin == s.origin[ids[0] := n]
    ensures Next(s, Originate(n, ids[0], p.id)).delivered[Delivery(n, p.id)] == s.delivered[Delivery(n, p.id)]
  {
    var t := Next(s, Originate(n, ids[0], p.id));
    assert |s.seen[n] + {ids[0]}| == |s.seen[n]| + 1;
    assert t.seen[n] == s.seen[n] + {ids[0]};
    assert p in t.flying;
  }

  /** A run in which n delivers the message once more than before, up to `messages` in all. */
  ghost predicate DeliversAgain(s: Network, n: NodeId, id: MsgId, messages: nat, steps: seq<Step>, t: Network) {
    var again :=
      && Runs(s, steps, t) && |t.origin| == messages
      && t.delivered[Delivery(n, id)] > s.delivered[Delivery(n, id)];
    again
  }

  /** Past the cap at-most-once delivery fails: the popped id is delivered a second time, and
      `more` messages after that take nothing back. */
  lemma {:induction false} OverflowRedelivers(s: Network, n: NodeId, p: Packet, ids: seq<MsgId>, longest: nat,
                                              more: nat)
    returns (steps: seq<Step>, t: Network)
    requires NearOverflow(s, n, p, ids)
    requires forall id :: id in s.origin || id in ids ==> |id| <= longest
    ensures DeliversAgain(s, n, p.id, |s.origin| + |ids| + more, steps, t)
    decreases |ids|
  {
    var first := Originate(n, ids[0], p.id);
    assert ids == [ids[0]] + ids[1..];
    if |ids| == 1 {
      steps, t := LastIdRun(s, n, p, ids[0], longest, more);
    } else {
      EarlierIdFits(s, n, p, ids);
      steps, t := OverflowRedelivers(Next(s, first), n, p, ids[1..], longest, more);
      RunsCons(s, first, steps, t);
      steps := [first] + steps;
    }
  }

  lemma LastIdRun(s: Network, n: NodeId, p: Packet, id: MsgId, longest: nat, more: nat)
      returns (steps: seq<Step>, t: Network)
    requires NearOverflow(s, n, p, [id]) && |id| <= longest
    requires forall other :: other in s.origin ==> |other| <= longest
    ensures DeliversAgain(s, n, p.id, |s.origin| + 1 + more, steps, t)
  {
    LastIdOverflows(s, n, p, id);
    var first, last := Originate(n, id, p.id), Deliver(p, id);
    var s1 := Next(s, first);
    steps, t := MoreMessages(Next(s1, last), n, longest, more);
    RunsCons(s1, last, steps, t);
    steps := [last] + steps;
    RunsCons(s, first, steps, t);
    steps := [first] + steps;
  }

  lemma RunsCons(s: Network, step: Step, rest: seq<Step>, t: Network)
    ensures Runs(s, [step] + rest, t) <==> Enabled(s, step) && Runs(Next(s, step), rest, t)
  {
    assert ([step] + rest)[1..] == rest;
  }

  /** Two nodes that list each other, or one that lists itself. */
  ghost predicate TwoWay(peers: map<NodeId, set<NodeId>>, n: NodeId, u: NodeId) {
    n in peers && u in peers && u in peers[n] && n in peers[u]
  }

  /** What n typed is on its way to u. */
  lemma MessageGoesOut(peers: map<NodeId, set<NodeId>>, n: NodeId, u: NodeId, id: MsgId)
    requires TwoWay(peers, n, u)
    ensures var first := Originate(n, id, id);
            && Enabled(Init(peers), first)
            && var s := Next(Init(peers), first);
            && s.peers == peers && s.seen == Init(peers).seen[n := {id}] && s.origin == map[id := n] && id in s.sent
            && s.delivered[Delivery(n, id)] == 1 && Packet(Edge(n, u), id) in s.flying
  {
    assert Packet(Edge(n, u), id) in Broadcast(n, peers[n], id);
  }

  /** A node that typed the only message, which is coming back to it along `echo`. */
  ghost predicate EchoComes(s: Network, peers: map<NodeId, set<NodeId>>, n: NodeId, id: MsgId, echo: Packet) {
    && s.peers == peers && n in peers && s.seen.Keys == peers.Keys && s.seen[n] == {id}
    && s.origin == map[id := n] && id in s.sent && s.delivered[Delivery(n, id)] == 1
    && echo.edge.dst == n && echo.id == id && echo in s.flying
  }

  /** Once it has arrived at another node u, it is on its way back to n. */
  lemma MessageComesBack(peers: map<NodeId, set<NodeId>>, s: Network, n: NodeId, u: NodeId, id: MsgId)
    requires TwoWay(peers, n, u) && n != u
    requires s.peers == peers && s.seen == Init(peers).seen[n := {id}] && s.origin == map[id := n] && id in s.sent
    requires s.delivered[Delivery(n, id)] == 1 && Packet(Edge(n, u), id) in s.flying
    ensures var there := Deliver(Packet(Edge(n, u), id), id);
            Enabled(s, there) && EchoComes(Next(s, there), peers, n, id, Packet(Edge(u, n), id))
  {
    assert Packet(Edge(u, n), id) in Broadcast(u, peers[u], id);
  }

  /** As many different ids as needed. */
  function Unary(length: nat): MsgId {
    seq(length, _ => 'x')
  }

  lemma NewMessageIsTyped(s: Network, n: NodeId, id: MsgId)
    requires s.seen.Keys == s.peers.Keys && n in s.peers && id !in s.origin
    ensures Enabled(s, Originate(n, id, id))
    ensures var t := Next(s, Originate(n, id, id));
            && t.origin == s.origin[id := n] && t.peers == s.peers && t.seen.Keys == t.peers.Keys
            && forall d :: t.delivered[d] >= s.delivered[d]
  {
  }

  ghost predicate Grows(s: Network, more: nat, steps: seq<Step>, t: Network) {
    var grows := Runs(s, steps, t) && |t.origin| == |s.origin| + more && forall d :: t.delivered[d] >= s.delivered[d];
    grows
  }

  /** More messages can always be typed, and take back no delivery. */
  lemma {:induction false} MoreMessages(s: Network, n: NodeId, longest: nat, more: nat)
    returns (steps: seq<Step>, t: Network)
    requires s.seen.Keys == s.peers.Keys && n in s.peers
    requires forall id :: id in s.origin ==> |id| <= longest
    ensures Grows(s, more, steps, t)
    decreases more
  {
    steps, t := [], s;
    if more > 0 {
      var id := Unary(longest + 1);
      NewMessageIsTyped(s, n, id);
      steps, t := MoreMessages(Next(s, Originate(n, id, id)), n, longest + 1, more - 1);
      RunsCons(s, Originate(n, id, id), steps, t);
      steps := [Originate(n, id, id)] + steps;
    }
  }

  lemma EchoRedelivers(peers: map<NodeId, set<NodeId>>, s: Network, n: NodeId, id: MsgId, echo: Packet,
                       ids: seq<MsgId>, longest: nat, more: nat)
    returns (steps: seq<Step>, t: Network)
    requires EchoComes(s, peers, n, id, echo) && |ids| == MAX_SEEN && |id| <= longest
    requires forall i :: 0 <= i < |ids| ==> ids[i] != id && |ids[i]| <= longest
    requires forall i, j :: 0 <= i < j < |ids| ==> ids[i] != ids[j]
    ensures DeliversAgain(s, n, id, MAX_SEEN + 1 + more, steps, t) && t.delivered[Delivery(n, id)] > 1
  {
    assert NearOverflow(s, n, echo, ids);
    steps, t := OverflowRedelivers(s, n, echo, ids, longest, more);
  }

  /** The message that n typed comes back and, with its id popped, is delivered again. */
  lemma TypedRedelivers(peers: map<NodeId, set<NodeId>>, n: NodeId, u: NodeId, id: MsgId, ids: seq<MsgId>,
                        longest: nat, more: nat)
    returns (steps: seq<Step>, t: Network)
    requires TwoWay(peers, n, u) && |ids| == MAX_SEEN && |id| <= longest
    requires forall i :: 0 <= i < |ids| ==> ids[i] != id && |ids[i]| <= longest
    requires forall i, j :: 0 <= i < j < |ids| ==> ids[i] != ids[j]
    ensures Redelivers(peers, MAX_SEEN + 1 + more, steps, t)
  {
    MessageGoesOut(peers, n, u, id);
    var s := Next(Init(peers), Originate(n, id, id));
    var there := Deliver(Packet(Edge(n, u), id), id);
    if n == u {
      steps, t := EchoRedelivers(peers, s, n, id, Packet(Edge(u, n), id), ids, longest, more);
    } else {
      MessageComesBack(peers, s, n, u, id);
      steps, t := EchoRedelivers(peers, Next(s, there), n, id, Packet(Edge(u, n), id), ids, longest, more);
      RunsCons(s, there, steps, t);
      steps := [there] + steps;
    }
    RunsCons(Init(peers), Originate(n, id, id), steps, t);
    steps := [Originate(n, id, id)] + steps;
  }

  /** In any graph with a two-way connection, one message more than the cap is enough. */
  lemma RedeliveryIsReachable(peers: map<NodeId, set<NodeId>>, n: NodeId, u: NodeId, more: nat)
    returns (steps: seq<Step>, t: Network)
    requires TwoWay(peers, n, u)
    ensures Redelivers(peers, MAX_SEEN + 1 + more, steps, t)
  {
    var ids := seq(MAX_SEEN, i requires 0 <= i < MAX_SEEN => Unary(i + 1));
    assert forall i :: 0 <= i < |ids| ==> |ids[i]| == i + 1;
    steps, t := TypedRedelivers(peers, n, u, Unary(0), ids, MAX_SEEN, more);
  }

  ghost predicate Redelivers(peers: map<NodeId, set<NodeId>>, messages: nat, steps: seq<Step>, t: Network) {
    var redelivers := Runs(Init(peers), steps, t) && |t.origin| == messages && exists d :: t.delivered[d] > 1;
    redelivers
  }

  /** In every graph with a two-way connection, some run delivers a message twice to a node if
      and only if it has more messages than the cap. */
  lemma RedeliveryNeedsOverflow(peers: map<NodeId, set<NodeId>>, n: NodeId, u: NodeId, messages: nat)
    requires WellFormedGraph(peers) && TwoWay(peers, n, u)
    ensures (exists steps, t :: Redelivers(peers, messages, steps, t)) <==> messages > 500
  {
    if messages > MAX_SEEN {
      var steps, t := RedeliveryIsReachable(peers, n, u, messages - MAX_SEEN - 1);
      assert Redelivers(peers, messages, steps, t);
    } else if steps, t :| Redelivers(peers, messages, steps, t) {
      NothingIsRedelivered(peers, steps, t);
    }
  }

  ghost predicate NoConnections(peers: map<NodeId, set<NodeId>>) {
    forall n :: n in peers ==> peers[n] == {}
  }

  /** Without connections a message stays where it was typed. */
  ghost predicate Isolated(s: Network) {
    && NoConnections(s.peers) && s.flying == multiset{}
    && (forall d :: s.delivered[d] <= 1) && (forall d :: d in s.delivered ==> d.id in s.origin)
  }

  lemma {:induction false} IsolatedRuns(s: Network, steps: seq<Step>, t: Network)
    requires Isolated(s) && Runs(s, steps, t)
    ensures Isolated(t)
    decreases |steps|
  {
    if steps != [] {
      assert steps[0].Originate?;
      assert Broadcast(steps[0].node, {}, steps[0].id) == {};
      IsolatedRuns(Next(s, steps[0]), steps[1..], t);
    }
  }

  /** When all connections are two-way, as TCP connections are, redelivery is possible if and only
      if there is a connection at all and the messages exceed the cap. */
  lemma RedeliveryNeedsAConnection(peers: map<NodeId, set<NodeId>>, messages: nat)
    requires WellFormedGraph(peers) && forall n, u :: n in peers && u in peers[n] ==> TwoWay(peers, n, u)
    ensures (exists steps, t :: Redelivers(peers, messages, steps, t)) <==>
            messages > 500 && exists n, u :: TwoWay(peers, n, u)
  {
    if n, u :| TwoWay(peers, n, u) {
      RedeliveryNeedsOverflow(peers, n, u, messages);
    } else if steps, t :| Redelivers(peers, messages, steps, t) {
      IsolatedRuns(Init(peers), steps, t);
    }
  }

  lemma NothingIsRedelivered(peers: map<NodeId, set<NodeId>>, steps: seq<Step>, t: Network)
    requires WellFormedGraph(peers) && Runs(Init(peers), steps, t) && |t.origin| <= MAX_SEEN
    ensures forall d :: t.delivered[d] <= 1
  {
    FloodDeliversAtMostOnce(peers, steps, t);
    forall d: Delivery
      ensures t.delivered[d] <= 1
    {
      assert d == Delivery(d.node, d.id);
    }
  }
}
