/** Bootstrap enrolment at a controller: a short-lived token is exchanged once for a new
    pending node, and a retry with the same token finds that node while it is pending. */
module Enrollment {
  import opened Text
  import opened BindingRecord

  /** `Active` includes nodes that are offline. */
  datatype Status = Pending | Active | Revoked

  datatype Node = Node(workspace: string, name: string, endpoint: string, status: Status)

  datatype Use = Use(endpoint: string, node: string)

  datatype Token = Token(workspace: string, environment: string, name: Option<string>, expected: Option<string>,
                         expires: int, used: Option<Use>)

  /** `key` verifies what the controller signs. */
  datatype Controller = Controller(key: string, tokens: map<string, Token>, nodes: map<string, Node>)

  /** A request with a valid proof of the endpoint; `node` is the identifier drawn for a new
      node, `full` says whether too many nodes are pending, `now` is the last clock reading. */
  datatype Ask = Ask(token: string, environment: string, endpoint: string, now: int, node: string, full: bool)

  predicate Knows(c: Controller, endpoint: string) {
    exists n | n in c.nodes :: c.nodes[n].endpoint == endpoint
  }

  predicate ForThis(t: Token, environment: string, endpoint: string) {
    t.environment == environment && (t.expected.Some? ==> t.expected.value == endpoint)
  }

  /** The expected name, or one made from the first six bytes of the endpoint. */
  function NameFor(t: Token, endpoint: string): string {
    if t.name.Some? then t.name.value else "node-" + if |endpoint| > 12 then endpoint[..12] else endpoint
  }

  /** Names are unique in a workspace, those of revoked nodes included. */
  predicate NameTaken(c: Controller, workspace: string, name: string) {
    exists n | n in c.nodes :: c.nodes[n].workspace == workspace && c.nodes[n].name == name
  }

  predicate StillPending(c: Controller, t: Token, endpoint: string)
    requires t.used.Some?
  {
    var u := t.used.value;
    && u.endpoint == endpoint && u.node in c.nodes
    && c.nodes[u.node].(name := "") == Node(t.workspace, "", endpoint, Pending)
  }

  function NewNode(t: Token, endpoint: string): Node {
    Node(t.workspace, NameFor(t, endpoint), endpoint, Pending)
  }

  /** `enrollBootstrap`, one transaction. */
  function EnrolStep(c: Controller, a: Ask): (Controller, Option<string>) {
    if a.token !in c.tokens || !ForThis(c.tokens[a.token], a.environment, a.endpoint) then (c, None)
    else
      var t := c.tokens[a.token];
      if t.used.Some? then (c, if StillPending(c, t, a.endpoint) then Some(t.used.value.node) else None)
      else if a.now >= t.expires || Knows(c, a.endpoint) || a.full
          || NameTaken(c, t.workspace, NameFor(t, a.endpoint)) then (c, None)
      else (c.(tokens := c.tokens[a.token := t.(used := Some(Use(a.endpoint, a.node)))],
               nodes := c.nodes[a.node := NewNode(t, a.endpoint)]),
            Some(a.node))
  }

  class BootstrapService {
    const key: string
    var tokens: map<string, Token>
    var nodes: map<string, Node>

    function View(): Controller
      reads this
    {
      Controller(key, tokens, nodes)
    }

    constructor (c: Controller)
      ensures View() == c
    {
      key, tokens, nodes := c.key, c.tokens, c.nodes;
    }

    method EnrolBootstrap(a: Ask) returns (answer: Option<string>)
      modifies this
      ensures (View(), answer) == EnrolStep(old(View()), a)
    {
      if a.token !in tokens {
        return None;
      }
      var t := tokens[a.token];
      if t.environment != a.environment || (t.expected.Some? && t.expected.value != a.endpoint) {
        return None;
      }
      if t.used.Some? {
        var u := t.used.value;
        if u.endpoint != a.endpoint || u.node !in nodes {
          return None;
        }
        var n := nodes[u.node];
        if n.workspace != t.workspace || n.status != Pending || n.endpoint != a.endpoint {
          return None;
        }
        return Some(u.node);
      }
      if a.now >= t.expires || Knows(View(), a.endpoint) || a.full {
        return None;
      }
      var name := NameFor(t, a.endpoint);
      if NameTaken(View(), t.workspace, name) {
        return None;
      }
      nodes := nodes[a.node := Node(t.workspace, name, a.endpoint, Pending)];
      tokens := tokens[a.token := t.(used := Some(Use(a.endpoint, a.node)))];
      answer := Some(a.node);
    }
  }

  // ---------- what every step keeps ----------

  /** One node for each endpoint, and every used token leads to the node it was used for. */
  predicate Sound(c: Controller) {
    && (forall n | n in c.nodes :: NodeId(n)) && OneEach(c.nodes)
    && (forall t | t in c.tokens && c.tokens[t].used.Some? :: UsedWell(c, c.tokens[t].used.value))
  }

  predicate OneEach(nodes: map<string, Node>) {
    forall m, n | m in nodes && n in nodes && nodes[m].endpoint == nodes[n].endpoint :: m == n
  }

  predicate UsedWell(c: Controller, u: Use) {
    u.node in c.nodes && c.nodes[u.node].endpoint == u.endpoint
  }

  /** Nodes stay, and none becomes pending or comes back from revocation. */
  predicate NodesLater(c: Controller, c': Controller) {
    c'.key == c.key && forall n | n in c.nodes ::
      && n in c'.nodes && c'.nodes[n].(status := Pending) == c.nodes[n].(status := Pending)
      && (c.nodes[n].status != Pending ==> c'.nodes[n].status != Pending)
      && (c.nodes[n].status == Revoked ==> c'.nodes[n].status == Revoked)
  }

  predicate TokensLater(c: Controller, c': Controller) {
    forall t | t in c.tokens ::
      && t in c'.tokens && c'.tokens[t].(used := None) == c.tokens[t].(used := None)
      && (c.tokens[t].used.Some? ==> c'.tokens[t].used == c.tokens[t].used)
  }

  predicate New(c: Controller, node: string) {
    NodeId(node) && node !in c.nodes
  }

  lemma EnrolKeeps(c: Controller, a: Ask)
    requires Sound(c) && New(c, a.node)
    ensures var c' := EnrolStep(c, a).0;
            && Sound(c') && NodesLater(c, c') && TokensLater(c, c')
            && c'.tokens.Keys == c.tokens.Keys && c'.nodes.Keys <= c.nodes.Keys + {a.node}
  {
    hide NodeId, OneEach;
    if EnrolStep(c, a).0 != c {
      OneMoreEach(c, a, NewNode(c.tokens[a.token], a.endpoint));
    }
  }

  lemma OneMoreEach(c: Controller, a: Ask, node: Node)
    requires OneEach(c.nodes) && !Knows(c, a.endpoint) && a.node !in c.nodes && node.endpoint == a.endpoint
    ensures OneEach(c.nodes[a.node := node])
  {
    var nodes := c.nodes[a.node := node];
    assert forall n | n in c.nodes :: nodes[n] == c.nodes[n] && c.nodes[n].endpoint != a.endpoint;
  }

  lemma TokenAdded(c: Controller, value: string, token: Token)
    requires Sound(c) && value !in c.tokens && token.used.None?
    ensures var c' := c.(tokens := c.tokens[value := token]); Sound(c') && NodesLater(c, c') && TokensLater(c, c')
  {
    hide NodeId;
  }

  lemma StatusChanged(c: Controller, node: string, status: Status)
    requires Sound(c) && node in c.nodes && (status == Revoked || (status == Active && c.nodes[node].status == Pending))
    ensures var c' := c.(nodes := c.nodes[node := c.nodes[node].(status := status)]);
            Sound(c') && NodesLater(c, c') && TokensLater(c, c') && c'.nodes.Keys == c.nodes.Keys
  {
    hide NodeId, OneEach;
    var c' := c.(nodes := c.nodes[node := c.nodes[node].(status := status)]);
    assert forall n | n in c.nodes :: c'.nodes[n].endpoint == c.nodes[n].endpoint;
    SameEach(c.nodes, c'.nodes);
  }

  lemma SameEach(nodes: map<string, Node>, nodes': map<string, Node>)
    requires OneEach(nodes) && nodes'.Keys == nodes.Keys && forall n | n in nodes
             :: nodes'[n].endpoint == nodes[n].endpoint
    ensures OneEach(nodes')
  {}

  predicate IsPending(n: Node, endpoint: string) {
    n.endpoint == endpoint && n.status == Pending
  }

  /** A node that is given out is the endpoint's own, is pending, and is either new or the one
      the same token was used for. */
  lemma AnswerIsOwn(c: Controller, a: Ask)
    requires EnrolStep(c, a).1.Some?
    ensures var (c', answer) := EnrolStep(c, a);
            && answer.value in c'.nodes && IsPending(c'.nodes[answer.value], a.endpoint)
            && (answer.value == a.node || (answer.value in c.nodes && IsPending(c.nodes[answer.value], a.endpoint)))
  {}

  /** A used token leads its own endpoint to its node as long as that is pending. */
  predicate LeadsTo(c: Controller, a: Ask, t: Token, n: string) {
    t.used == Some(Use(a.endpoint, n)) && n in c.nodes && c.nodes[n].workspace == t.workspace
        && c.nodes[n].endpoint == a.endpoint && c.nodes[n].status == Pending
  }

  /** An unused token makes a node while it is in time, unless there is one with this endpoint
      anywhere or with this name in the workspace. */
  predicate MakesNew(c: Controller, a: Ask, t: Token, name: string) {
    t.used.None? && a.now < t.expires && !a.full && forall m | m in c.nodes ::
      c.nodes[m].endpoint != a.endpoint && (c.nodes[m].workspace != t.workspace || c.nodes[m].name != name)
  }

  function GivenName(t: Token, endpoint: string): string {
    match t.name
    case Some(name) => name
    case None => if |endpoint| <= 12 then "node-" + endpoint else "node-" + endpoint[..12]
  }

  predicate Presents(c: Controller, a: Ask) {
    && a.token in c.tokens && c.tokens[a.token].environment == a.environment
    && c.tokens[a.token].expected in {None, Some(a.endpoint)}
  }

  /** The whole table of an enrolment: who gets which node, and that everybody else changes
      nothing. */
  lemma AnsweredExactly(c: Controller, a: Ask, n: string)
    ensures var (c', answer) := EnrolStep(c, a);
            if !Presents(c, a) then c' == c && answer == None
            else
              var t := c.tokens[a.token];
              var name := GivenName(t, a.endpoint);
              if MakesNew(c, a, t, name) then
                && answer == Some(a.node)
                && c' == Controller(c.key, c.tokens[a.token := t.(used := Some(Use(a.endpoint, a.node)))],
                                    c.nodes[a.node := Node(t.workspace, name, a.endpoint, Pending)])
              else c' == c && (answer == Some(n) <==> LeadsTo(c, a, t, n))
  {
    if Presents(c, a) {
      var t := c.tokens[a.token];
      assert ForThis(t, a.environment, a.endpoint);
      assert GivenName(t, a.endpoint) == NameFor(t, a.endpoint);
      assert t.used.Some? && LeadsTo(c, a, t, t.used.value.node) <==> t.used.Some? && StillPending(c, t, a.endpoint);
    }
  }

  // ---------- when an answer can still be had ----------

  /** The token is for this endpoint and environment, and either leads to its pending node or
      is unused and in time, with the endpoint unknown and the name free. */
  predicate Answerable(c: Controller, token: string, environment: string, endpoint: string, now: int) {
    && token in c.tokens && ForThis(c.tokens[token], environment, endpoint)
    && var t := c.tokens[token];
       if t.used.Some? then StillPending(c, t, endpoint)
       else now < t.expires && !Knows(c, endpoint) && !NameTaken(c, t.workspace, NameFor(t, endpoint))
  }

  lemma AnsweredWhenAnswerable(c: Controller, a: Ask)
    ensures EnrolStep(c, a).1.Some? ==> Answerable(c, a.token, a.environment, a.endpoint, a.now)
    ensures Answerable(c, a.token, a.environment, a.endpoint, a.now) && !a.full ==> EnrolStep(c, a).1.Some?
  {}

  /** A controller that has had the endpoint, and not only as a pending node, never answers it
      again, whatever the token. */
  lemma KnownIsRefused(c: Controller, n: string, token: string, environment: string, endpoint: string, now: int)
    requires Sound(c) && n in c.nodes && c.nodes[n].endpoint == endpoint && c.nodes[n].status != Pending
    ensures !Answerable(c, token, environment, endpoint, now)
  {
    hide NodeId;
  }

  /** Once refused, a token is refused for good: by any later state in which no token of that
      value was added and this endpoint did not use it. */
  lemma RefusedStays(c: Controller, c': Controller, token: string, environment: string, endpoint: string, now: int,
                     later: int)
    requires Sound(c) && Sound(c') && NodesLater(c, c') && TokensLater(c, c') && now <= later
    requires token in c'.tokens ==> token in c.tokens
    requires token in c.tokens && c.tokens[token].used.None? && c'.tokens[token].used.Some? ==>
               c'.tokens[token].used.value.endpoint != endpoint
    requires !Answerable(c, token, environment, endpoint, now)
    ensures !Answerable(c', token, environment, endpoint, later)
  {
    hide NodeId;
  }

  lemma UsedByAsker(c: Controller, a: Ask, token: string)
    requires token in c.tokens && c.tokens[token].used.None? && EnrolStep(c, a).0.tokens[token].used.Some?
    ensures EnrolStep(c, a).0.tokens[token].used.value.endpoint == a.endpoint
  {}
}
