/**
 The hierarchy tree handed to the diagram renderer: nodes tagged with a scope
 and an action, linked by typed connections. Each node owns its outgoing
 connections, so a value of these types is always a finite tree.

 Functions over a forest come in pairs, one for a sequence of edges and one
 for a single edge, so that every call is on a structurally smaller value.
 */
module Objects {

  datatype ScopeType = Contract | Public | Private | Trait | Payable

  datatype ActionType = None | Event | Mutation | Process | View

  datatype ConnectionType = DirectConnection | CrossContractConnection | Emission

  datatype Node = Node(name: string, scope: ScopeType, action: ActionType, connections: seq<Connection>)

  datatype Connection = Connection(connectionType: ConnectionType, node: Node)

  /** Number of nodes reached through `cs`, at every depth. */
  function NodeCount(cs: seq<Connection>): nat {
    if |cs| == 0 then 0 else SubtreeSize(cs[0]) + NodeCount(cs[1..])
  }

  /** Number of nodes in the subtree an edge leads to, its target included. */
  function SubtreeSize(c: Connection): nat {
    1 + NodeCount(c.node.connections)
  }

  /** The children of the first edge, and the remaining edges, are each a
      strictly smaller forest: the measure for inductions over a forest. */
  lemma NodeCountShrinks(cs: seq<Connection>)
    requires |cs| > 0
    ensures NodeCount(cs[0].node.connections) < NodeCount(cs)
    ensures NodeCount(cs[1..]) < NodeCount(cs)
  {
  }

  /** Names of all nodes reached through `cs`, each node before its own children. */
  function NodeNames(cs: seq<Connection>): seq<string> {
    if |cs| == 0 then [] else SubtreeNames(cs[0]) + NodeNames(cs[1..])
  }

  function SubtreeNames(c: Connection): seq<string> {
    [c.node.name] + NodeNames(c.node.connections)
  }

  /** Some node reached through `cs`, at any depth, has scope `s`. */
  predicate ScopeOccurs(cs: seq<Connection>, s: ScopeType) {
    |cs| > 0 && (ScopeOccursBelow(cs[0], s) || ScopeOccurs(cs[1..], s))
  }

  predicate ScopeOccursBelow(c: Connection, s: ScopeType) {
    c.node.scope == s || ScopeOccurs(c.node.connections, s)
  }

  /** The tags one edge can carry when it was derived from a single function
      record: a visibility scope, and an emission edge exactly for an event. */
  predicate ClassifiedEdge(c: Connection) {
    && (c.node.scope == Public || c.node.scope == Private)
    && (c.connectionType == Emission <==> c.node.action == Event)
  }

  /** Every edge reached through `cs`, at every depth, is a classified edge. */
  predicate WellClassified(cs: seq<Connection>) {
    |cs| > 0 ==> WellClassifiedBelow(cs[0]) && WellClassified(cs[1..])
  }

  predicate WellClassifiedBelow(c: Connection) {
    ClassifiedEdge(c) && WellClassified(c.node.connections)
  }

  /** A well-classified forest holds no `Contract`-scoped node. */
  lemma {:induction false} WellClassifiedHasNoContractScope(cs: seq<Connection>)
    requires WellClassified(cs)
    ensures !ScopeOccurs(cs, Contract)
    decreases NodeCount(cs)
  {
    if |cs| > 0 {
      NodeCountShrinks(cs);
      WellClassifiedHasNoContractScope(cs[0].node.connections);
      WellClassifiedHasNoContractScope(cs[1..]);
    }
  }
}
