/** The gateway's shared state. Each method is one critical section, so a run of the server is any sequence of calls. */
module Gateway {

  datatype Option<+T> = None | Some(value: T)

  type Token = string
  type Connection = nat

  datatype Network = Network(hash: string, namespace: string)

  /** A control stream that has been accepted and not yet removed. */
  datatype Control = Control(token: Token, network: Network)

  datatype Moment = Moment(draining: bool, connections: set<Connection>)

  ghost function ControlsOf(live: map<nat, Control>, token: Token): set<nat> {
    set id | id in live && live[id].token == token
  }

  /** The reference counts agree with the live controls. */
  ghost predicate Accounts(tenants: map<Token, int>, networks: map<Token, Network>, live: map<nat, Control>) {
    && tenants.Keys == networks.Keys
    && (forall t :: t in tenants ==> tenants[t] == |ControlsOf(live, t)| > 0)
    && (forall id :: id in live ==> live[id].token in networks && networks[live[id].token] == live[id].network)
  }

  function Count(tenants: map<Token, int>, token: Token): int { if token in tenants then tenants[token] else 0 }

  lemma CountsLive(tenants: map<Token, int>, networks: map<Token, Network>, live: map<nat, Control>, token: Token)
    requires Accounts(tenants, networks, live)
    ensures Count(tenants, token) == |ControlsOf(live, token)|
  {
    if token !in tenants { assert ControlsOf(live, token) == {}; }
  }

  /** Counting one more control of a session that is new or has that network keeps the accounts. */
  lemma OneMore(tenants: map<Token, int>, networks: map<Token, Network>, live: map<nat, Control>, id: nat, c: Control)
    requires Accounts(tenants, networks, live) && id !in live
    requires c.token in networks ==> networks[c.token] == c.network
    ensures Accounts(tenants[c.token := Count(tenants, c.token) + 1], networks[c.token := c.network], live[id := c])
  {
    forall t ensures |ControlsOf(live[id := c], t)| == |ControlsOf(live, t)| + (if t == c.token then 1 else 0) {
      Joined(live, id, c, t);
    }
    CountsLive(tenants, networks, live, c.token);
    hide ControlsOf;
    assert Accounts(tenants[c.token := Count(tenants, c.token) + 1], networks[c.token := c.network], live[id := c]);
  }

  lemma Joined(live: map<nat, Control>, id: nat, c: Control, t: Token)
    requires id !in live
    ensures |ControlsOf(live[id := c], t)| == |ControlsOf(live, t)| + (if t == c.token then 1 else 0)
  {
    assert ControlsOf(live[id := c], t) == ControlsOf(live, t) + (if t == c.token then {id} else {});
  }

  lemma Left(live: map<nat, Control>, id: nat, t: Token)
    requires id in live
    ensures |ControlsOf(live - {id}, t)| == |ControlsOf(live, t)| - (if t == live[id].token then 1 else 0)
  {
    assert ControlsOf(live - {id}, t) == ControlsOf(live, t) - (if t == live[id].token then {id} else {});
  }

  /** Counting one control less, and forgetting the session with its last one, keeps the accounts. */
  lemma OneLess(tenants: map<Token, int>, networks: map<Token, Network>, live: map<nat, Control>, id: nat)
    requires Accounts(tenants, networks, live) && id in live
    ensures live[id].token in tenants && tenants[live[id].token] >= 1
    ensures var t := live[id].token;
            if tenants[t] <= 1 then Accounts(tenants - {t}, networks - {t}, live - {id})
            else Accounts(tenants[t := tenants[t] - 1], networks, live - {id})
  {
    var token, after := live[id].token, live - {id};
    forall t ensures |ControlsOf(after, t)| == |ControlsOf(live, t)| - (if t == token then 1 else 0) {
      Left(live, id, t);
    }
    assert |ControlsOf(live, token)| == tenants[token];
    if tenants[token] <= 1 {
      assert ControlsOf(after, token) == {};
      assert forall i :: i in after && after[i].token == token ==> i in ControlsOf(after, token);
    }
  }

  class Server {
    var tenants: map<Token, int>
    var networks: map<Token, Network>
    var connections: set<Connection>
    var draining: bool
    var waitGroup: int
    ghost var live: map<nat, Control>
    ghost var leaving: nat            // connections taken off the set whose wait group entry is still to be returned
    ghost var surplus: nat            // entries of connections tracked once more, which nobody will return
    ghost var history: seq<Moment>

    ghost predicate Valid()
      reads this
    {
      && Accounts(tenants, networks, live)
      && waitGroup == |connections| + leaving + surplus
      && |history| > 0 && history[|history| - 1] == Moment(draining, connections)
      && OnlyShrinks(history)
    }

    constructor ()
      ensures Valid() && surplus == 0 && live == map[] && connections == {} && !draining
    {
      tenants, networks, connections, draining, waitGroup := map[], map[], {}, false, 0;
      live, leaving, surplus, history := map[], 0, 0, [Moment(false, {})];
    }

    /** Accept a control stream unless the session is live under another network. */
    method OpenControl(token: Token, network: Network, ghost id: nat) returns (accepted: bool)
      requires Valid() && id !in live
      modifies this`tenants, this`networks, this`live
      ensures Valid()
      ensures accepted <==> forall c :: c in old(live).Values && c.token == token ==> c.network == network
      ensures live == if accepted then old(live)[id := Control(token, network)] else old(live)
    {
      if token in networks && networks[token] != network {
        ghost var other :| other in ControlsOf(live, token);
        assert live[other] in live.Values;
        return false;
      }
      OneMore(tenants, networks, live, id, Control(token, network));
      networks := networks[token := network];
      tenants := tenants[token := Count(tenants, token) + 1];
      live := live[id := Control(token, network)];
      accepted := true;
    }

    /** The stream behind an accepted control has ended. */
    method RemoveControl(token: Token, ghost id: nat)
      requires Valid() && id in live && live[id].token == token
      modifies this`tenants, this`networks, this`live
      ensures Valid() && live == old(live) - {id}
    {
      OneLess(tenants, networks, live, id);
      var count := Count(tenants, token);
      live := live - {id};
      if count <= 1 {
        tenants, networks := tenants - {token}, networks - {token};
        return;
      }
      tenants := tenants[token := count - 1];
    }

    /** Traffic is let through exactly for a session with a live control stream for that same network. */
    method AuthorizedNetwork(token: Token, required: Option<Network>) returns (ok: bool)
      requires Valid()
      ensures ok <==> required.Some? && Control(token, required.value) in live.Values
    {
      CountsLive(tenants, networks, live, token);
      if Count(tenants, token) <= 0 {
        assert forall id :: id in live ==> live[id].token != token by {
          assert forall id :: id in live && live[id].token == token ==> id in ControlsOf(live, token);
        }
        return false;
      }
      ghost var id :| id in ControlsOf(live, token);
      assert live[id] in live.Values;
      if required.None? { return false; }
      ok := token in networks && networks[token] == required.value;
    }

    /** A connection that is tracked already gets a second entry in the wait group, and only one is ever returned. */
    method TrackConnection(connection: Connection) returns (ok: bool)
      requires Valid()
      modifies this`connections, this`waitGroup, this`surplus, this`history
      ensures Valid() && ok == !draining
      ensures surplus == old(surplus) + (if ok && connection in old(connections) then 1 else 0)
      ensures connections == if ok then old(connections) + {connection} else old(connections)
    {
      if draining { return false; }
      if connection in connections {
        surplus := surplus + 1;
        assert connections + {connection} == connections;
      }
      connections := connections + {connection};
      waitGroup := waitGroup + 1;
      history := history + [Moment(draining, connections)];
      ok := true;
    }

    /** Take a connection off the set; its wait group entry is returned after the lock is released. */
    method UntrackConnection(connection: Connection) returns (tracked: bool)
      requires Valid()
      modifies this`connections, this`leaving, this`history
      ensures Valid() && tracked == (connection in old(connections)) && connections == old(connections) - {connection}
      ensures leaving == old(leaving) + (if tracked then 1 else 0)
    {
      if connection !in connections {
        assert connections == connections - {connection};
        return false;
      }
      connections := connections - {connection};
      leaving := leaving + 1;
      history := history + [Moment(draining, connections)];
      tracked := true;
    }

    method ReturnEntry()
      requires Valid() && leaving > 0
      modifies this`waitGroup, this`leaving
      ensures Valid() && leaving == old(leaving) - 1
    {
      waitGroup, leaving := waitGroup - 1, leaving - 1;
    }

    method BeginDrain()
      requires Valid()
      modifies this`draining, this`history
      ensures Valid() && draining
    {
      draining := true;
      history := history + [Moment(draining, connections)];
    }

    /** The end of a drain: the wait group came down to zero, or time was up. */
    method Drained() returns (ok: bool)
      requires Valid() && draining
      ensures ok ==> history[|history| - 1] == Moment(true, {})
      ensures surplus > 0 ==> !ok
    {
      var timedOut: bool := *;
      ok := waitGroup == 0 && !timedOut;
    }
  }

  /** Once draining, always draining, and no connection is ever added. */
  ghost predicate OnlyShrinks(history: seq<Moment>) {
    forall i, j :: 0 <= i <= j < |history| && history[i].draining ==>
      history[j].draining && history[j].connections <= history[i].connections
  }

  /** After a drain that ended well there is no connection, for good. */
  lemma DrainedForGood(history: seq<Moment>, i: nat, j: nat)
    requires OnlyShrinks(history) && i <= j < |history| && history[i] == Moment(true, {})
    ensures history[j] == Moment(true, {})
  {
    assert history[j].draining && history[j].connections <= history[i].connections;
  }
}
