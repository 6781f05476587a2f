/**
 * The PipeWire audio backend: a registry of the graph's nodes and of the ports not yet
 * attached to a node, kept up to date from registry events, and two routing sessions
 * (sound input into a recording application, passthrough from a playback application)
 * made of the link ids the daemon handed back.
 *
 * The daemon is not modelled. Creating a link is an oracle `link(input, output)` that may
 * fail; deleting a link always succeeds, so a stop only reports the ids it deleted.
 * The info events the daemon sends while a freshly bound node or port is synchronised
 * are passed to the added-event as a sequence and folded in, so an added-event is one
 * atomic transition.
 */
module PipeWire {
  import opened Wrappers
  import opened Strings
  import opened Keys

  datatype Direction = Input | Output

  function Opposite(d: Direction): (r: Direction)
    ensures r != d
  {
    if d == Input then Output else Input
  }

  /** A port; `parentNode` is 0 until an info event names the owning node, and `side` is the
      last character of the port name ('L', 'R', '1', '2', ...). */
  datatype Port = Port(id: int, parentNode: int, direction: Option<Direction>, side: Option<char>, alias: string)

  function NewPort(id: int): Port {
    Port(id, 0, None, None, "")
  }

  datatype Node = Node(id: int, pid: Option<int>, name: string, applicationBinary: string, ports: map<int, Port>)

  function NewNode(id: int): Node {
    Node(id, None, "", "", map[])
  }

  /** The backend's state: tracked nodes, free ports, and the two sessions' link ids. */
  datatype Graph = Graph(nodes: map<int, Node>, ports: map<int, Port>, soundInputLinks: seq<int>, passthroughLinks: seq<int>)

  predicate SameLinks(a: Graph, b: Graph) {
    a.soundInputLinks == b.soundInputLinks && a.passthroughLinks == b.passthroughLinks
  }

  // ---------------------------------------------------------------------------------
  // Info events
  // ---------------------------------------------------------------------------------

  /** The properties of a node info event: "application.process.id" (already parsed),
      "application.name" and "application.process.binary", each possibly absent. */
  datatype NodeInfo = NodeInfo(id: int, pid: Option<int>, appName: Option<string>, appBinary: Option<string>)

  /** A port info event: its direction, and the "node.id" (already parsed), "port.name"
      and "port.alias" properties, each possibly absent. */
  datatype PortInfo = PortInfo(id: int, direction: Direction, nodeId: Option<int>, portName: Option<string>, portAlias: Option<string>)

  /** A node info event overwrites exactly the properties it carries, on a tracked node only. */
  function OnNodeInfo(g: Graph, info: NodeInfo): (r: Graph)
    ensures r.ports == g.ports && SameLinks(r, g)
    ensures r.nodes.Keys == g.nodes.Keys
    ensures forall k :: k in g.nodes && k != info.id ==> r.nodes[k] == g.nodes[k]
    ensures info.id in g.nodes ==>
      var before, after := g.nodes[info.id], r.nodes[info.id];
      && after.id == before.id && after.ports == before.ports
      && (info.pid.Some? ==> after.pid == info.pid)
      && (info.pid.None? ==> after.pid == before.pid)
      && after.name == info.appName.GetOr(before.name)
      && after.applicationBinary == info.appBinary.GetOr(before.applicationBinary)
  {
    if info.id in g.nodes then
      var n := g.nodes[info.id];
      var n1 := n.(pid := if info.pid.Some? then info.pid else n.pid,
                   name := info.appName.GetOr(n.name),
                   applicationBinary := info.appBinary.GetOr(n.applicationBinary));
      g.(nodes := g.nodes[info.id := n1])
    else
      g
  }

  /** A port info event always sets the direction, and otherwise overwrites exactly the
      properties it carries, on a free port only. The side is the port name's last character. */
  function OnPortInfo(g: Graph, info: PortInfo): (r: Graph)
    ensures r.nodes == g.nodes && SameLinks(r, g)
    ensures r.ports.Keys == g.ports.Keys
    ensures forall k :: k in g.ports && k != info.id ==> r.ports[k] == g.ports[k]
    ensures info.id in g.ports ==>
      var before, after := g.ports[info.id], r.ports[info.id];
      && after.id == before.id
      && after.direction == Some(info.direction)
      && after.parentNode == info.nodeId.GetOr(before.parentNode)
      && after.alias == info.portAlias.GetOr(before.alias)
      && (info.portName.Some? && info.portName.value != "" ==>
            after.side == Some(info.portName.value[|info.portName.value| - 1]))
      && (info.portName.None? ==> after.side == before.side)
  {
    if info.id in g.ports then
      var p := g.ports[info.id];
      var p1 := p.(direction := Some(info.direction),
                   parentNode := info.nodeId.GetOr(p.parentNode),
                   side := if info.portName.Some? && info.portName.value != ""
                           then Some(info.portName.value[|info.portName.value| - 1])
                           else p.side,
                   alias := info.portAlias.GetOr(p.alias));
      g.(ports := g.ports[info.id := p1])
    else
      g
  }

  /** Repeating an info event changes nothing more. */
  lemma InfoIdempotent(g: Graph, ni: NodeInfo, pi: PortInfo)
    ensures OnNodeInfo(OnNodeInfo(g, ni), ni) == OnNodeInfo(g, ni)
    ensures OnPortInfo(OnPortInfo(g, pi), pi) == OnPortInfo(g, pi)
  {
    if ni.id in g.nodes {
      var once := OnNodeInfo(g, ni);
      assert OnNodeInfo(once, ni).nodes == once.nodes;
    }
    if pi.id in g.ports {
      var once := OnPortInfo(g, pi);
      assert OnPortInfo(once, pi).ports == once.ports;
    }
  }

  predicate NoNodeInfoFor(infos: seq<NodeInfo>, k: int) {
    forall i :: 0 <= i < |infos| ==> infos[i].id != k
  }

  predicate NoPortInfoFor(infos: seq<PortInfo>, k: int) {
    forall i :: 0 <= i < |infos| ==> infos[i].id != k
  }

  /** The node info events of one synchronisation, in arrival order. */
  function ApplyNodeInfos(g: Graph, infos: seq<NodeInfo>): (r: Graph)
    ensures r.ports == g.ports && SameLinks(r, g)
    ensures r.nodes.Keys == g.nodes.Keys
    ensures forall k :: k in g.nodes ==> r.nodes[k].id == g.nodes[k].id && r.nodes[k].ports == g.nodes[k].ports
    ensures forall k :: k in g.nodes && NoNodeInfoFor(infos, k) ==> r.nodes[k] == g.nodes[k]
    decreases |infos|
  {
    if infos == [] then g
    else
      var r := ApplyNodeInfos(OnNodeInfo(g, infos[0]), infos[1..]);
      assert forall k :: NoNodeInfoFor(infos, k) ==> NoNodeInfoFor(infos[1..], k) && infos[0].id != k;
      r
  }

  /** The port info events of one synchronisation, in arrival order. The last event about
      a free port decides its direction. */
  function ApplyPortInfos(g: Graph, infos: seq<PortInfo>): (r: Graph)
    ensures r.nodes == g.nodes && SameLinks(r, g)
    ensures r.ports.Keys == g.ports.Keys
    ensures forall k :: k in g.ports ==> r.ports[k].id == g.ports[k].id
    ensures forall k :: k in g.ports && NoPortInfoFor(infos, k) ==> r.ports[k] == g.ports[k]
    ensures infos != [] && infos[|infos| - 1].id in g.ports ==>
      r.ports[infos[|infos| - 1].id].direction == Some(infos[|infos| - 1].direction)
    decreases |infos|
  {
    if infos == [] then g
    else
      var r := ApplyPortInfos(OnPortInfo(g, infos[0]), infos[1..]);
      assert forall k :: NoPortInfoFor(infos, k) ==> NoPortInfoFor(infos[1..], k) && infos[0].id != k;
      assert |infos| > 1 ==> infos[1..][|infos[1..]| - 1] == infos[|infos| - 1];
      r
  }

  // ---------------------------------------------------------------------------------
  // Registry events
  // ---------------------------------------------------------------------------------

  const NODE_NAME_KEY: string := "node.name"

  /** A node this application created itself: its "node.name" contains the marker. */
  predicate IsOwnNode(props: map<string, string>) {
    NODE_NAME_KEY in props && Contains(props[NODE_NAME_KEY], MARKER)
  }

  /** A node appeared: unless it is one of ours or cannot be bound, it is tracked (an
      existing entry is kept), then its info events are folded in. */
  function NodeAdded(g: Graph, id: int, props: map<string, string>, bound: bool, infos: seq<NodeInfo>): (r: Graph)
    ensures IsOwnNode(props) || !bound ==> r == g
    ensures !IsOwnNode(props) && bound ==>
      && r.ports == g.ports && SameLinks(r, g)
      && r.nodes.Keys == g.nodes.Keys + {id}
      && (id !in g.nodes ==> r.nodes[id].id == id && r.nodes[id].ports == map[])
      && (id !in g.nodes && NoNodeInfoFor(infos, id) ==> r.nodes[id] == NewNode(id))
      && (forall k :: k in g.nodes && NoNodeInfoFor(infos, k) ==> r.nodes[k] == g.nodes[k])
  {
    if IsOwnNode(props) || !bound then g
    else
      var g1 := if id in g.nodes then g else g.(nodes := g.nodes[id := NewNode(id)]);
      ApplyNodeInfos(g1, infos)
  }

  /** The state of a new free port once its info events are folded in. */
  function Settled(g: Graph, id: int, infos: seq<PortInfo>): (p: Port)
    ensures p.id == (if id in g.ports then g.ports[id].id else id)
    ensures id !in g.ports && NoPortInfoFor(infos, id) ==> p == NewPort(id)
    ensures infos != [] && infos[|infos| - 1].id == id ==> p.direction == Some(infos[|infos| - 1].direction)
  {
    var g1 := if id in g.ports then g else g.(ports := g.ports[id := NewPort(id)]);
    ApplyPortInfos(g1, infos).ports[id]
  }

  /** A port appeared: it is tracked as free (an existing entry is kept), its info events
      are folded in, and then it moves into its parent node when that node is tracked. */
  function PortAdded(g: Graph, id: int, bound: bool, infos: seq<PortInfo>): (r: Graph)
    ensures !bound ==> r == g
    ensures bound ==> SameLinks(r, g) && r.nodes.Keys == g.nodes.Keys
    ensures bound ==>
      var p := Settled(g, id, infos);
      if p.parentNode > 0 && p.parentNode in g.nodes then
        && id !in r.ports
        && id in r.nodes[p.parentNode].ports
        && (id !in g.nodes[p.parentNode].ports ==> r.nodes[p.parentNode].ports[id] == p)
        && r.nodes[p.parentNode] == g.nodes[p.parentNode].(ports := r.nodes[p.parentNode].ports)
        && r.nodes[p.parentNode].ports.Keys == g.nodes[p.parentNode].ports.Keys + {id}
        && (forall q :: q in g.nodes[p.parentNode].ports ==>
              r.nodes[p.parentNode].ports[q] == g.nodes[p.parentNode].ports[q])
        && (forall k :: k in g.nodes && k != p.parentNode ==> r.nodes[k] == g.nodes[k])
      else
        id in r.ports && r.ports[id] == p && r.nodes == g.nodes
    ensures bound ==> forall k :: k != id && NoPortInfoFor(infos, k) ==>
      (k in r.ports <==> k in g.ports) && (k in r.ports ==> r.ports[k] == g.ports[k])
  {
    if !bound then g
    else
      var g1 := if id in g.ports then g else g.(ports := g.ports[id := NewPort(id)]);
      var g2 := ApplyPortInfos(g1, infos);
      var p := g2.ports[id];
      if p.parentNode > 0 && p.parentNode in g2.nodes then
        var n := g2.nodes[p.parentNode];
        var n1 := if id in n.ports then n else n.(ports := n.ports[id := p]);
        g2.(nodes := g2.nodes[p.parentNode := n1], ports := g2.ports - {id})
      else
        g2
  }

  datatype Kind = NodeKind | PortKind | OtherKind

  /** The registry's global-added event, dispatched on the object's interface type. An event
      without properties, or of another type, is ignored; no added-event touches a session. */
  function GlobalAdded(g: Graph, id: int, kind: Kind, props: Option<map<string, string>>, bound: bool,
                       nodeInfos: seq<NodeInfo>, portInfos: seq<PortInfo>): (r: Graph)
    ensures props.None? || kind == OtherKind ==> r == g
    ensures props.Some? && kind == NodeKind ==> r == NodeAdded(g, id, props.value, bound, nodeInfos)
    ensures props.Some? && kind == PortKind ==> r == PortAdded(g, id, bound, portInfos)
    ensures SameLinks(r, g)
    ensures kind == NodeKind ==> r.ports == g.ports
    ensures kind == PortKind ==> r.nodes.Keys == g.nodes.Keys
  {
    if props.None? then g
    else
      match kind
      case NodeKind => NodeAdded(g, id, props.value, bound, nodeInfos)
      case PortKind => PortAdded(g, id, bound, portInfos)
      case OtherKind => g
  }

  /** A global disappeared: it is no longer a tracked node nor a free port; nothing else changes. */
  function GlobalRemoved(g: Graph, id: int): (r: Graph)
    ensures id !in r.nodes && id !in r.ports && SameLinks(r, g)
    ensures forall k :: k != id ==> (k in r.nodes <==> k in g.nodes) && (k in r.ports <==> k in g.ports)
    ensures forall k :: k in r.nodes ==> r.nodes[k] == g.nodes[k]
    ensures forall k :: k in r.ports ==> r.ports[k] == g.ports[k]
  {
    g.(nodes := g.nodes - {id}, ports := g.ports - {id})
  }

  /** Removing a node that was just added, with info events about it alone, restores the registry. */
  lemma RemoveUndoesNodeAdded(g: Graph, id: int, props: map<string, string>, infos: seq<NodeInfo>)
    requires id !in g.nodes && id !in g.ports
    requires forall i :: 0 <= i < |infos| ==> infos[i].id == id
    ensures GlobalRemoved(NodeAdded(g, id, props, true, infos), id) == g
  {
    var r := GlobalRemoved(NodeAdded(g, id, props, true, infos), id);
    if !IsOwnNode(props) {
      assert forall k :: k in g.nodes ==> NoNodeInfoFor(infos, k);
    }
    assert r.nodes == g.nodes;
    assert r.ports == g.ports;
  }

  /** Removing a port that was just added and stayed free, with info events about it alone,
      restores the registry. */
  lemma RemoveUndoesFreePortAdded(g: Graph, id: int, infos: seq<PortInfo>)
    requires id !in g.nodes && id !in g.ports
    requires forall i :: 0 <= i < |infos| ==> infos[i].id == id
    requires Settled(g, id, infos).parentNode <= 0 || Settled(g, id, infos).parentNode !in g.nodes
    ensures GlobalRemoved(PortAdded(g, id, true, infos), id) == g
  {
    var r := GlobalRemoved(PortAdded(g, id, true, infos), id);
    assert forall k :: k != id ==> NoPortInfoFor(infos, k);
    assert r.nodes == g.nodes;
    assert r.ports == g.ports;
  }

  /** A port that moved into its node is not pruned when it is removed: its copy stays
      among the node's ports. */
  lemma RemovalKeepsAttachedPort(g: Graph, id: int, infos: seq<PortInfo>)
    requires id !in g.ports
    requires Settled(g, id, infos).parentNode > 0 && Settled(g, id, infos).parentNode in g.nodes
    requires Settled(g, id, infos).parentNode != id
    ensures var parent := Settled(g, id, infos).parentNode;
            var r := GlobalRemoved(PortAdded(g, id, true, infos), id);
            parent in r.nodes && id in r.nodes[parent].ports
  {
  }

  /** Whatever the registry announced under a fresh id, removing that id again restores the
      registry, as long as a port did not move into a node. */
  lemma RemoveUndoesGlobalAdded(g: Graph, id: int, kind: Kind, props: Option<map<string, string>>, bound: bool,
                                nodeInfos: seq<NodeInfo>, portInfos: seq<PortInfo>)
    requires id !in g.nodes && id !in g.ports
    requires forall i :: 0 <= i < |nodeInfos| ==> nodeInfos[i].id == id
    requires forall i :: 0 <= i < |portInfos| ==> portInfos[i].id == id
    requires props.Some? && kind == PortKind && bound ==>
      Settled(g, id, portInfos).parentNode <= 0 || Settled(g, id, portInfos).parentNode !in g.nodes
    ensures GlobalRemoved(GlobalAdded(g, id, kind, props, bound, nodeInfos, portInfos), id) == g
  {
    var r := GlobalRemoved(GlobalAdded(g, id, kind, props, bound, nodeInfos, portInfos), id);
    if props.Some? && kind == NodeKind && bound {
      RemoveUndoesNodeAdded(g, id, props.value, nodeInfos);
    } else if props.Some? && kind == PortKind && bound {
      RemoveUndoesFreePortAdded(g, id, portInfos);
    } else {
      assert r.nodes == g.nodes;
      assert r.ports == g.ports;
    }
  }

  // ---------------------------------------------------------------------------------
  // Queries
  // ---------------------------------------------------------------------------------

  datatype AppKind = PipeWireApp | OtherApp

  /** An application handle as the backends hand it out; `kind` stands for the dynamic type. */
  datatype App = App(kind: AppKind, pid: Option<int>, nodeId: int, name: string, application: string)

  function AppOf(nodeId: int, n: Node): App {
    App(PipeWireApp, n.pid, nodeId, n.name, n.applicationBinary)
  }

  predicate HasPortTowards(n: Node, d: Direction) {
    exists k :: k in n.ports && n.ports[k].direction == Some(d)
  }

  /** Listed as a recording (d = Input) or playback (d = Output) application. */
  predicate IsListed(n: Node, d: Direction) {
    n.applicationBinary != "" && HasPortTowards(n, d)
  }

  function AppsFrom(nodes: map<int, Node>, d: Direction, ks: seq<int>): (r: seq<App>)
    requires forall i :: 0 <= i < |ks| ==> ks[i] in nodes
    ensures forall a :: a in r ==> a.nodeId in ks && a == AppOf(a.nodeId, nodes[a.nodeId]) && IsListed(nodes[a.nodeId], d)
    ensures forall k :: k in ks && IsListed(nodes[k], d) ==> AppOf(k, nodes[k]) in r
    ensures Distinct(ks) ==> Distinct(r)
    decreases |ks|
  {
    if ks == [] then []
    else
      var rest := AppsFrom(nodes, d, ks[1..]);
      assert ks[0] in ks;
      assert forall k :: k in ks ==> k == ks[0] || k in ks[1..];
      if IsListed(nodes[ks[0]], d) then
        var r := [AppOf(ks[0], nodes[ks[0]])] + rest;
        assert Distinct(ks) ==> Distinct(r) by {
          if Distinct(ks) {
            assert Distinct(ks[1..]) by {
              forall i, j | 0 <= i < j < |ks[1..]| ensures ks[1..][i] != ks[1..][j] {
                assert ks[1..][i] == ks[i + 1] && ks[1..][j] == ks[j + 1];
              }
            }
            assert ks[0] !in ks[1..] by {
              forall i | 0 <= i < |ks[1..]| ensures ks[1..][i] != ks[0] { assert ks[1..][i] == ks[i + 1]; }
            }
            forall j | 0 < j < |r| ensures r[0] != r[j] {
              assert r[j] in rest;
            }
          }
        }
        r
      else
        assert Distinct(ks) ==> Distinct(ks[1..]) by {
          if Distinct(ks) {
            forall i, j | 0 <= i < j < |ks[1..]| ensures ks[1..][i] != ks[1..][j] {
              assert ks[1..][i] == ks[i + 1] && ks[1..][j] == ks[j + 1];
            }
          }
        }
        rest
  }

  /** getRecordingApps (d = Input) and getPlaybackApps (d = Output): exactly the tracked nodes
      with a non-empty binary and a port facing `d`, each once, copied from the node. */
  function ListApps(g: Graph, d: Direction): (r: seq<App>)
    ensures forall a :: a in r ==> a.kind == PipeWireApp && a.nodeId in g.nodes && IsListed(g.nodes[a.nodeId], d)
    ensures forall a :: a in r ==> a == AppOf(a.nodeId, g.nodes[a.nodeId])
    ensures forall k :: k in g.nodes && IsListed(g.nodes[k], d) ==> AppOf(k, g.nodes[k]) in r
    ensures Distinct(r)
  {
    AppsFrom(g.nodes, d, Ascending(g.nodes.Keys))
  }

  predicate Increasing(ks: seq<int>) {
    forall i, j :: 0 <= i < j < |ks| ==> ks[i] < ks[j]
  }

  /** The first key of the ascending `ks` whose node is named `name`. */
  function FirstNamed(nodes: map<int, Node>, name: string, ks: seq<int>): (r: Option<int>)
    requires forall k :: k in ks ==> k in nodes
    requires Increasing(ks)
    ensures r.None? <==> forall k :: k in ks ==> nodes[k].name != name
    ensures r.Some? ==> r.value in ks && nodes[r.value].name == name
    ensures r.Some? ==> forall k :: k in ks && k < r.value ==> nodes[k].name != name
    decreases |ks|
  {
    if ks == [] then None
    else
      assert ks[0] in ks;
      assert forall k :: k in ks ==> k == ks[0] || k in ks[1..];
      if nodes[ks[0]].name == name then
        assert forall k :: k in ks[1..] ==> ks[0] < k by {
          forall k | k in ks[1..] ensures ks[0] < k {
            var i :| 0 <= i < |ks[1..]| && ks[1..][i] == k;
            assert ks[1..][i] == ks[i + 1];
          }
        }
        Some(ks[0])
      else
        assert Increasing(ks[1..]) by {
          forall i, j | 0 <= i < j < |ks[1..]| ensures ks[1..][i] < ks[1..][j] {
            assert ks[1..][i] == ks[i + 1] && ks[1..][j] == ks[j + 1];
          }
        }
        FirstNamed(nodes, name, ks[1..])
  }

  /** getPlaybackApp / getRecordingApp: the tracked node with the lowest id whose name is
      `name`, whatever its binary or ports, or nothing when no node has that name. */
  function FindApp(g: Graph, name: string): (r: Option<App>)
    ensures r.None? <==> forall k :: k in g.nodes ==> g.nodes[k].name != name
    ensures r.Some? ==> r.value.nodeId in g.nodes && r.value == AppOf(r.value.nodeId, g.nodes[r.value.nodeId])
    ensures r.Some? ==> g.nodes[r.value.nodeId].name == name
    ensures r.Some? ==> forall k :: k in g.nodes && k < r.value.nodeId ==> g.nodes[k].name != name
  {
    var ks := Ascending(g.nodes.Keys);
    var found := FirstNamed(g.nodes, name, ks);
    if found.Some? then Some(AppOf(found.value, g.nodes[found.value])) else None
  }

  // ---------------------------------------------------------------------------------
  // Routing sessions
  // ---------------------------------------------------------------------------------

  predicate RightChannel(c: Option<char>) {
    c == Some('R') || c == Some('2')
  }

  predicate LeftChannel(c: Option<char>) {
    c == Some('L') || c == Some('1')
  }

  /** The channel heuristic: both sides right ('R' or '2') or both left ('L' or '1'). */
  predicate SameChannel(a: Option<char>, b: Option<char>) {
    (RightChannel(a) && RightChannel(b)) || (LeftChannel(a) && LeftChannel(b))
  }

  /** A free port of this application facing `d`: the marker occurs in its alias. */
  predicate IsOwnPort(p: Port, d: Direction) {
    p.direction == Some(d) && Contains(p.alias, MARKER)
  }

  /** The daemon's link factory: `link(input port, output port)` is the new link's id, or
      nothing when the daemon refused. */
  type Linker = (int, int) -> Option<int>

  /** The (input, output) arguments for linking free port `p` (facing `d`) with node port `q`. */
  function LinkEnds(d: Direction, p: int, q: int): (int, int) {
    if d == Output then (q, p) else (p, q)
  }

  /** linkPorts for free port `p` and node port `q`. */
  function Request(link: Linker, d: Direction, p: int, q: int): Option<int> {
    var ends := LinkEnds(d, p, q);
    link(ends.0, ends.1)
  }

  /** Free port `p` and node port `q` are paired by a session whose free ports face `d`,
      and the daemon accepts the link. */
  predicate CanLink(free: map<int, Port>, nodePorts: map<int, Port>, d: Direction, link: Linker, p: int, q: int) {
    && p in free && q in nodePorts
    && IsOwnPort(free[p], d)
    && nodePorts[q].direction == Some(Opposite(d))
    && SameChannel(free[p].side, nodePorts[q].side)
    && Request(link, d, p, q).Some?
  }

  ghost function LinkablePairs(free: map<int, Port>, nodePorts: map<int, Port>, d: Direction, link: Linker): set<(int, int)> {
    set p, q | p in free && q in nodePorts && CanLink(free, nodePorts, d, link, p, q) :: (p, q)
  }

  /** One link the session made: its free port, its node port and the id the daemon gave it. */
  datatype Link = Link(freePort: int, nodePort: int, id: int)

  function Ends(r: seq<Link>): (e: seq<(int, int)>)
    ensures |e| == |r|
    ensures forall i :: 0 <= i < |r| ==> e[i] == (r[i].freePort, r[i].nodePort)
  {
    seq(|r|, i requires 0 <= i < |r| => (r[i].freePort, r[i].nodePort))
  }

  function Ids(r: seq<Link>): (ids: seq<int>)
    ensures |ids| == |r|
    ensures forall i :: 0 <= i < |r| ==> ids[i] == r[i].id
  {
    seq(|r|, i requires 0 <= i < |r| => r[i].id)
  }

  lemma DistinctTail<T>(s: seq<T>)
    requires s != []
    ensures Distinct(s) ==> Distinct(s[1..]) && s[0] !in s[1..]
  {
    if Distinct(s) {
      forall i, j | 0 <= i < j < |s[1..]| ensures s[1..][i] != s[1..][j] {
        assert s[1..][i] == s[i + 1] && s[1..][j] == s[j + 1];
      }
      forall i | 0 <= i < |s[1..]| ensures s[1..][i] != s[0] {
        assert s[1..][i] == s[i + 1];
      }
    }
  }

  /** A link whose node port no other link uses keeps the pairs distinct. */
  lemma EndsCons(x: Link, rest: seq<Link>)
    requires Distinct(Ends(rest)) && forall y :: y in rest ==> y.nodePort != x.nodePort
    ensures Distinct(Ends([x] + rest))
  {
    var r := [x] + rest;
    forall i, j | 0 <= i < j < |r| ensures Ends(r)[i] != Ends(r)[j] {
      assert r[j] == rest[j - 1];
      if i > 0 {
        assert r[i] == rest[i - 1];
        assert Ends(rest)[i - 1] != Ends(rest)[j - 1];
      } else {
        assert r[j] in rest;
      }
    }
  }

  /** Two runs of links over different free ports keep the pairs distinct. */
  lemma EndsAppend(row: seq<Link>, rest: seq<Link>)
    requires Distinct(Ends(row)) && Distinct(Ends(rest))
    requires forall x, y :: x in row && y in rest ==> x.freePort != y.freePort
    ensures Distinct(Ends(row + rest))
  {
    var r := row + rest;
    forall i, j | 0 <= i < j < |r| ensures Ends(r)[i] != Ends(r)[j] {
      if j < |row| {
        assert r[i] == row[i] && r[j] == row[j];
        assert Ends(row)[i] != Ends(row)[j];
      } else if i >= |row| {
        assert r[i] == rest[i - |row|] && r[j] == rest[j - |row|];
        assert Ends(rest)[i - |row|] != Ends(rest)[j - |row|];
      } else {
        assert r[i] == row[i] && r[i] in row && r[j] == rest[j - |row|] && r[j] in rest;
      }
    }
  }

  /** The inner loop: free port `p` against the node ports `qs`, in order. */
  function LinkRow(free: map<int, Port>, nodePorts: map<int, Port>, d: Direction, link: Linker, p: int, qs: seq<int>): (r: seq<Link>)
    requires p in free && IsOwnPort(free[p], d)
    requires forall q :: q in qs ==> q in nodePorts
    ensures forall x :: x in r ==> x.freePort == p && x.nodePort in qs
    ensures forall x :: x in r ==> CanLink(free, nodePorts, d, link, x.freePort, x.nodePort) && Request(link, d, x.freePort, x.nodePort) == Some(x.id)
    ensures forall q :: q in qs && CanLink(free, nodePorts, d, link, p, q) ==> Link(p, q, Request(link, d, p, q).value) in r
    ensures Distinct(qs) ==> Distinct(Ends(r))
    decreases |qs|
  {
    if qs == [] then []
    else
      var q := qs[0];
      var rest := LinkRow(free, nodePorts, d, link, p, qs[1..]);
      assert forall k :: k in qs ==> k == q || k in qs[1..];
      DistinctTail(qs);
      if nodePorts[q].direction == Some(Opposite(d)) && SameChannel(free[p].side, nodePorts[q].side) then
        match Request(link, d, p, q)
        case Some(id) =>
          var r := [Link(p, q, id)] + rest;
          assert Distinct(qs) ==> Distinct(Ends(r)) by {
            if Distinct(qs) {
              EndsCons(Link(p, q, id), rest);
            }
          }
          r
        case None => rest
      else
        rest
  }

  /** The outer loop: every free port in `ps`, in order, against all the node's ports. */
  function LinkAll(free: map<int, Port>, nodePorts: map<int, Port>, d: Direction, link: Linker, ps: seq<int>): (r: seq<Link>)
    requires forall p :: p in ps ==> p in free
    ensures forall x :: x in r ==> x.freePort in ps
    ensures forall x :: x in r ==> CanLink(free, nodePorts, d, link, x.freePort, x.nodePort) && Request(link, d, x.freePort, x.nodePort) == Some(x.id)
    ensures forall p, q :: p in ps && CanLink(free, nodePorts, d, link, p, q) ==> Link(p, q, Request(link, d, p, q).value) in r
    ensures Distinct(ps) ==> Distinct(Ends(r))
    decreases |ps|
  {
    if ps == [] then []
    else
      var p := ps[0];
      var rest := LinkAll(free, nodePorts, d, link, ps[1..]);
      assert forall k :: k in ps ==> k == p || k in ps[1..];
      DistinctTail(ps);
      if IsOwnPort(free[p], d) then
        var row := LinkRow(free, nodePorts, d, link, p, Ascending(nodePorts.Keys));
        var r := row + rest;
        assert Distinct(ps) ==> Distinct(Ends(r)) by {
          if Distinct(ps) {
            EndsAppend(row, rest);
          }
        }
        r
      else
        rest
  }

  /** The links one session start makes between the free ports and the ports of `nodeId`. */
  function SessionLinks(g: Graph, nodeId: int, d: Direction, link: Linker): (r: seq<Link>)
    requires nodeId in g.nodes
    ensures Distinct(Ends(r))
    ensures forall x :: x in r ==> CanLink(g.ports, g.nodes[nodeId].ports, d, link, x.freePort, x.nodePort) && Request(link, d, x.freePort, x.nodePort) == Some(x.id)
    ensures forall p, q :: CanLink(g.ports, g.nodes[nodeId].ports, d, link, p, q) ==> Link(p, q, Request(link, d, p, q).value) in r
  {
    LinkAll(g.ports, g.nodes[nodeId].ports, d, link, Ascending(g.ports.Keys))
  }

  /** The ids of a session are exactly the daemon's ids for the linkable pairs, one per pair. */
  ghost predicate IsSession(ids: seq<int>, free: map<int, Port>, nodePorts: map<int, Port>, d: Direction, link: Linker) {
    && |ids| == |LinkablePairs(free, nodePorts, d, link)|
    && (forall i :: 0 <= i < |ids| ==> exists p, q :: CanLink(free, nodePorts, d, link, p, q) && Request(link, d, p, q) == Some(ids[i]))
    && (forall p, q :: CanLink(free, nodePorts, d, link, p, q) ==> Request(link, d, p, q).value in ids)
  }

  /** The links a session made, read as (free port, node port) pairs, are exactly the linkable pairs. */
  ghost predicate LinksMatch(r: seq<Link>, free: map<int, Port>, nodePorts: map<int, Port>, d: Direction, link: Linker) {
    && (forall x :: x in r ==> CanLink(free, nodePorts, d, link, x.freePort, x.nodePort) && Request(link, d, x.freePort, x.nodePort) == Some(x.id))
    && (forall p, q :: CanLink(free, nodePorts, d, link, p, q) ==> Link(p, q, Request(link, d, p, q).value) in r)
  }

  lemma EndsArePairs(r: seq<Link>, free: map<int, Port>, nodePorts: map<int, Port>, d: Direction, link: Linker)
    requires LinksMatch(r, free, nodePorts, d, link)
    ensures (set x | x in Ends(r)) == LinkablePairs(free, nodePorts, d, link)
  {
    var e := Ends(r);
    var pairs := LinkablePairs(free, nodePorts, d, link);
    forall x | x in e ensures x in pairs {
      var i :| 0 <= i < |e| && e[i] == x;
      assert r[i] in r;
    }
    forall x | x in pairs ensures x in e {
      var l := Link(x.0, x.1, Request(link, d, x.0, x.1).value);
      assert l in r;
      var i :| 0 <= i < |r| && r[i] == l;
      assert e[i] == x;
    }
  }

  lemma {:induction false} MatchingLinksAreSession(r: seq<Link>, free: map<int, Port>, nodePorts: map<int, Port>, d: Direction, link: Linker)
    requires LinksMatch(r, free, nodePorts, d, link) && Distinct(Ends(r))
    ensures IsSession(Ids(r), free, nodePorts, d, link)
  {
    EndsArePairs(r, free, nodePorts, d, link);
    DistinctCard(Ends(r));
    var ids := Ids(r);
    forall i | 0 <= i < |ids|
      ensures exists p, q :: CanLink(free, nodePorts, d, link, p, q) && Request(link, d, p, q) == Some(ids[i])
    {
      assert r[i] in r;
    }
    forall p, q | CanLink(free, nodePorts, d, link, p, q) ensures Request(link, d, p, q).value in ids {
      var l := Link(p, q, Request(link, d, p, q).value);
      var i :| 0 <= i < |r| && r[i] == l;
      assert ids[i] == l.id;
    }
  }

  /** The ids of the links one session start makes form a session for that node. */
  lemma SessionLinksAreSession(g: Graph, nodeId: int, d: Direction, link: Linker)
    requires nodeId in g.nodes
    ensures IsSession(Ids(SessionLinks(g, nodeId, d, link)), g.ports, g.nodes[nodeId].ports, d, link)
  {
    MatchingLinksAreSession(SessionLinks(g, nodeId, d, link), g.ports, g.nodes[nodeId].ports, d, link);
  }

  /** The result of a session call: the new state, the boolean the backend returns, and the
      link ids handed to deleteLink on the way. */
  datatype Outcome = Outcome(graph: Graph, ok: bool, deleted: seq<int>)

  /** stopSoundInput: every sound-input link is deleted, in order, and the list is emptied. */
  function StopSoundInput(g: Graph): (r: Outcome)
    ensures r.ok && r.deleted == g.soundInputLinks
    ensures r.graph.soundInputLinks == []
    ensures r.graph.nodes == g.nodes && r.graph.ports == g.ports && r.graph.passthroughLinks == g.passthroughLinks
  {
    Outcome(g.(soundInputLinks := []), true, g.soundInputLinks)
  }

  /** stopPassthrough: every passthrough link is deleted, in order, and the list is emptied. */
  function StopPassthrough(g: Graph): (r: Outcome)
    ensures r.ok && r.deleted == g.passthroughLinks
    ensures r.graph.passthroughLinks == []
    ensures r.graph.nodes == g.nodes && r.graph.ports == g.ports && r.graph.soundInputLinks == g.soundInputLinks
  {
    Outcome(g.(passthroughLinks := []), true, g.passthroughLinks)
  }

  /** isCurrentlyPassingThrough. */
  predicate IsCurrentlyPassingThrough(g: Graph) {
    g.passthroughLinks != []
  }

  /** A second stop deletes nothing, succeeds and changes nothing; after a stop nothing passes through. */
  lemma StopIdempotent(g: Graph)
    ensures var once := StopSoundInput(g).graph; StopSoundInput(once) == Outcome(once, true, [])
    ensures var once := StopPassthrough(g).graph; StopPassthrough(once) == Outcome(once, true, [])
    ensures !IsCurrentlyPassingThrough(StopPassthrough(g).graph)
  {
  }

  predicate IsPipeWireApp(app: Option<App>) {
    app.Some? && app.value.kind == PipeWireApp
  }

  /** inputSoundTo: a null or foreign handle changes nothing; otherwise the old sound-input
      session is stopped first, and on a tracked node every free output port of ours is
      linked to every same-channel input port of the node. Succeeds iff some link was made. */
  function InputSoundTo(g: Graph, app: Option<App>, link: Linker): (r: Outcome)
    ensures !IsPipeWireApp(app) ==> r == Outcome(g, false, [])
    ensures IsPipeWireApp(app) ==>
      && r.deleted == g.soundInputLinks
      && r.graph.nodes == g.nodes && r.graph.ports == g.ports
      && r.graph.passthroughLinks == g.passthroughLinks
    ensures IsPipeWireApp(app) && app.value.nodeId !in g.nodes ==> !r.ok && r.graph.soundInputLinks == []
    ensures IsPipeWireApp(app) && app.value.nodeId in g.nodes ==>
      var nodePorts := g.nodes[app.value.nodeId].ports;
      && IsSession(r.graph.soundInputLinks, g.ports, nodePorts, Output, link)
      && (r.ok <==> LinkablePairs(g.ports, nodePorts, Output, link) != {})
  {
    if !IsPipeWireApp(app) then Outcome(g, false, [])
    else
      var stopped := StopSoundInput(g);
      var g1 := stopped.graph;
      if app.value.nodeId !in g1.nodes then Outcome(g1, false, stopped.deleted)
      else
        var links := SessionLinks(g1, app.value.nodeId, Output, link);
        SessionLinksAreSession(g1, app.value.nodeId, Output, link);
        assert g1.soundInputLinks + Ids(links) == Ids(links);
        Outcome(g1.(soundInputLinks := g1.soundInputLinks + Ids(links)), |links| > 0, stopped.deleted)
  }

  /** passthroughFrom as the backend writes it: it stops the SOUND-INPUT session, not the
      passthrough one, before linking our free input ports to the node's output ports; the
      new passthrough ids are appended to whatever the list held. */
  function PassthroughFromAsWritten(g: Graph, app: Option<App>, link: Linker): (r: Outcome)
    ensures !IsPipeWireApp(app) ==> r == Outcome(g, false, [])
    ensures IsPipeWireApp(app) ==>
      && r.deleted == g.soundInputLinks
      && r.graph.soundInputLinks == []
      && r.graph.nodes == g.nodes && r.graph.ports == g.ports
      && |g.passthroughLinks| <= |r.graph.passthroughLinks|
      && r.graph.passthroughLinks[..|g.passthroughLinks|] == g.passthroughLinks
    ensures IsPipeWireApp(app) && app.value.nodeId !in g.nodes ==> !r.ok && r.graph.passthroughLinks == g.passthroughLinks
    ensures IsPipeWireApp(app) && app.value.nodeId in g.nodes ==>
      var nodePorts := g.nodes[app.value.nodeId].ports;
      && IsSession(r.graph.passthroughLinks[|g.passthroughLinks|..], g.ports, nodePorts, Input, link)
      && (r.ok <==> LinkablePairs(g.ports, nodePorts, Input, link) != {})
  {
    if !IsPipeWireApp(app) then Outcome(g, false, [])
    else
      var stopped := StopSoundInput(g);
      var g1 := stopped.graph;
      if app.value.nodeId !in g1.nodes then Outcome(g1, false, stopped.deleted)
      else
        var links := SessionLinks(g1, app.value.nodeId, Input, link);
        SessionLinksAreSession(g1, app.value.nodeId, Input, link);
        var all := g1.passthroughLinks + Ids(links);
        assert all[..|g.passthroughLinks|] == g.passthroughLinks;
        assert all[|g.passthroughLinks|..] == Ids(links);
        Outcome(g1.(passthroughLinks := all), |links| > 0, stopped.deleted)
  }

  /** passthroughFrom as evidently intended, mirroring inputSoundTo: the old passthrough
      session is stopped and the sound-input session is left alone. */
  function PassthroughFrom(g: Graph, app: Option<App>, link: Linker): (r: Outcome)
    ensures !IsPipeWireApp(app) ==> r == Outcome(g, false, [])
    ensures IsPipeWireApp(app) ==>
      && r.deleted == g.passthroughLinks
      && r.graph.nodes == g.nodes && r.graph.ports == g.ports
      && r.graph.soundInputLinks == g.soundInputLinks
    ensures IsPipeWireApp(app) && app.value.nodeId !in g.nodes ==> !r.ok && r.graph.passthroughLinks == []
    ensures IsPipeWireApp(app) && app.value.nodeId in g.nodes ==>
      var nodePorts := g.nodes[app.value.nodeId].ports;
      && IsSession(r.graph.passthroughLinks, g.ports, nodePorts, Input, link)
      && (r.ok <==> LinkablePairs(g.ports, nodePorts, Input, link) != {})
  {
    if !IsPipeWireApp(app) then Outcome(g, false, [])
    else
      var stopped := StopPassthrough(g);
      var g1 := stopped.graph;
      if app.value.nodeId !in g1.nodes then Outcome(g1, false, stopped.deleted)
      else
        var links := SessionLinks(g1, app.value.nodeId, Input, link);
        SessionLinksAreSession(g1, app.value.nodeId, Input, link);
        assert g1.passthroughLinks + Ids(links) == Ids(links);
        Outcome(g1.(passthroughLinks := g1.passthroughLinks + Ids(links)), |links| > 0, stopped.deleted)
  }

  /** With the intended passthroughFrom, the call succeeds exactly when the backend then
      reports that it is passing through, and the two sessions are independent. */
  lemma {:induction false} PassthroughFromReportsState(g: Graph, app: Option<App>, link: Linker)
    requires IsPipeWireApp(app)
    ensures var r := PassthroughFrom(g, app, link);
            (r.ok <==> IsCurrentlyPassingThrough(r.graph)) && r.graph.soundInputLinks == g.soundInputLinks
  {
    var r := PassthroughFrom(g, app, link);
    if app.value.nodeId in g.nodes {
      var pairs := LinkablePairs(g.ports, g.nodes[app.value.nodeId].ports, Input, link);
      assert |r.graph.passthroughLinks| == |pairs|;
      assert pairs == {} <==> |pairs| == 0;
    }
  }

  /** As written, starting a passthrough towards a node that has gone away fails, yet the
      previous passthrough links stay in place (the backend still reports passing through)
      and the unrelated sound-input session has been torn down. */
  lemma PassthroughKeepsStaleLinks()
    ensures var g := Graph(map[], map[], [3], [7]);
            var app := Some(App(PipeWireApp, None, 5, "Firefox", "firefox"));
            var r := PassthroughFromAsWritten(g, app, (i: int, o: int) => Some(42));
            && !r.ok
            && IsCurrentlyPassingThrough(r.graph) && r.graph.passthroughLinks == [7]
            && r.graph.soundInputLinks == [] && r.deleted == [3]
  {
  }

  /** Starting a sound-input session never disturbs a passthrough session. */
  lemma InputSoundKeepsPassthrough(g: Graph, app: Option<App>, link: Linker)
    ensures IsCurrentlyPassingThrough(InputSoundTo(g, app, link).graph) == IsCurrentlyPassingThrough(g)
  {
  }

  /** The capabilities the PipeWire backend does not implement report fixed results. */
  function UseAsDefault(): bool { false }

  function RevertDefault(): bool { true }

  function MuteInput(state: bool): bool { false }
}
