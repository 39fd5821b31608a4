/** The backend's registry of open event-channel connections, kept per
    phone, and the broadcast that pushes one gateway event to all of them.
    A connection is an opaque identity; which sends raise is a parameter
    of the broadcast. */
module Registry {

  /** The identity of one accepted connection. */
  type ConnId = nat

  /** A registered connection together with the phone it was opened for. */
  datatype Link = Link(conn: ConnId, phone: string)

  /** The registry's state: the connections of each phone. */
  type Connections = map<string, set<ConnId>>

  /** The event handed to `broadcast`: an empty dictionary, one that cannot
      be serialised, or its JSON text. */
  datatype Event = EmptyData | Unserialisable | Serialised(message: string)

  /** No phone is kept with an empty set of connections. */
  ghost predicate NoEmptyEntry(m: Connections) {
    forall p :: p in m ==> m[p] != {}
  }

  /** Every registered (connection, phone) pair. */
  function Pairs(m: Connections): (r: set<Link>)
    ensures forall l :: l in r <==> l.phone in m && l.conn in m[l.phone]
  {
    set p, w | p in m && w in m[p] :: Link(w, p)
  }

  /** `disconnect` on the state: the connection leaves its phone's set,
      and a phone whose set becomes empty is dropped. */
  function Without(m: Connections, w: ConnId, p: string): (r: Connections)
    ensures Pairs(r) == Pairs(m) - {Link(w, p)}
    ensures NoEmptyEntry(m) ==> NoEmptyEntry(r)
  {
    if p !in m then m
    else
      var rest := m[p] - {w};
      if rest == {} then
        assert forall v :: v in m[p] ==> v == w by {
          forall v | v in m[p] ensures v == w { assert v !in rest; }
        }
        m - {p}
      else m[p := rest]
  }

  /** The connections of `p` that are not in `F`. */
  function Kept(m: Connections, F: set<Link>, p: string): set<ConnId>
    requires p in m
  {
    set w | w in m[p] && Link(w, p) !in F
  }

  /** The state after every pair of `F` has been disconnected. */
  function RemovePairs(m: Connections, F: set<Link>): (r: Connections)
    ensures NoEmptyEntry(r)
  {
    map p | p in m && Kept(m, F, p) != {} :: Kept(m, F, p)
  }

  /** Removing a set of pairs removes exactly those pairs. */
  lemma RemovePairsPairs(m: Connections, F: set<Link>)
    ensures Pairs(RemovePairs(m, F)) == Pairs(m) - F
  {
    var r := RemovePairs(m, F);
    forall l | l in Pairs(m) - F ensures l in Pairs(r) {
      assert l.conn in Kept(m, F, l.phone);
    }
  }

  /** On a registry without empty entries, removing nothing changes nothing. */
  lemma RemoveNothing(m: Connections)
    requires NoEmptyEntry(m)
    ensures RemovePairs(m, {}) == m
  {
    forall p | p in m ensures Kept(m, {}, p) == m[p] { }
  }

  /** Removing one more pair only touches that pair's phone. */
  lemma RemoveOneMore(m: Connections, R: set<Link>, w: ConnId, p: string)
    ensures var before, after := RemovePairs(m, R), RemovePairs(m, R + {Link(w, p)});
            (forall q :: q != p ==> (q in after <==> q in before)) &&
            (forall q :: q != p && q in after ==> after[q] == before[q]) &&
            (p in after <==> p in before && before[p] - {w} != {}) &&
            (p in after ==> after[p] == before[p] - {w})
  {
    var R' := R + {Link(w, p)};
    forall q | q in m && q != p ensures Kept(m, R', q) == Kept(m, R, q) { }
    if p in m {
      assert Kept(m, R', p) == Kept(m, R, p) - {w};
    }
  }

  /** One more disconnect after removing `R` is removing `R` and that pair. */
  lemma WithoutAfterRemove(m: Connections, R: set<Link>, w: ConnId, p: string)
    ensures Without(RemovePairs(m, R), w, p) == RemovePairs(m, R + {Link(w, p)})
  {
    var before := RemovePairs(m, R);
    var after := RemovePairs(m, R + {Link(w, p)});
    RemoveOneMore(m, R, w, p);
    if p !in before {
      assert after == before;
    } else if before[p] - {w} == {} {
      assert after == before - {p};
    } else {
      assert after == before[p := before[p] - {w}];
    }
  }

  /** Removing pairs that are not registered has no effect. */
  lemma RemoveRegistered(m: Connections, F: set<Link>)
    ensures RemovePairs(m, Pairs(m) * F) == RemovePairs(m, F)
  {
    forall p | p in m ensures Kept(m, Pairs(m) * F, p) == Kept(m, F, p) { }
  }

  /** The send loop of `broadcast`: each link is sent the message once;
      the links whose send raises are collected, the others counted. */
  method SendAll(links: set<Link>, broken: set<Link>) returns (sent: nat, delivered: set<Link>, disconnected: seq<Link>)
    ensures delivered == links - broken && sent == |delivered|
    ensures forall l :: l in disconnected <==> l in links * broken
  {
    sent, delivered, disconnected := 0, {}, [];
    var pending := links;
    ghost var tried: set<Link> := {};
    while pending != {}
      invariant tried + pending == links && tried !! pending
      invariant delivered == tried - broken
      invariant forall l :: l in disconnected <==> l in tried * broken
      invariant sent == |delivered|
      decreases |pending|
    {
      var l :| l in pending;
      if l in broken {
        disconnected := disconnected + [l];
      } else {
        delivered := delivered + {l};
        sent := sent + 1;
      }
      pending := pending - {l};
      tried := tried + {l};
    }
  }

  /** What a connection's receive loop ended with. */
  datatype Ending = ClientDisconnected | OtherError

  class Manager {
    var connections: Connections

    ghost predicate Valid()
      reads this
    {
      NoEmptyEntry(connections)
    }

    constructor()
      ensures Valid() && connections == map[]
    {
      connections := map[];
    }

    /** `connect`: the accepted connection joins its phone's set, which is
        created on first use. */
    method Connect(w: ConnId, phone: string)
      modifies this
      ensures connections == old(connections)[phone := (if phone in old(connections) then old(connections)[phone] else {}) + {w}]
      ensures Pairs(connections) == Pairs(old(connections)) + {Link(w, phone)}
      ensures old(Valid()) ==> Valid()
    {
      if phone !in connections {
        connections := connections[phone := {}];
      }
      connections := connections[phone := connections[phone] + {w}];
    }

    /** `disconnect`: an unknown phone changes nothing; otherwise the
        connection is discarded and an emptied phone is dropped. */
    method Disconnect(w: ConnId, phone: string)
      modifies this
      ensures connections == Without(old(connections), w, phone)
      ensures phone !in old(connections) ==> connections == old(connections)
      ensures old(Valid()) ==> Valid()
    {
      if phone in connections {
        connections := connections[phone := connections[phone] - {w}];
        if connections[phone] == {} {
          connections := connections - {phone};
        }
      }
    }

    /** `broadcast`. Nothing is sent for an empty event, when no connection
        is open, or when the event cannot be serialised. Otherwise every
        registered connection is sent the message once; `broken` are those
        whose send raises. `sent` counts the successful sends, and exactly
        the broken connections are disconnected afterwards. */
    method Broadcast(data: Event, broken: set<Link>) returns (sent: nat, delivered: set<Link>)
      requires Valid()
      modifies this
      ensures data.EmptyData? || data.Unserialisable? || Pairs(old(connections)) == {} ==>
                sent == 0 && delivered == {} && connections == old(connections)
      ensures data.Serialised? && Pairs(old(connections)) != {} ==>
                delivered == Pairs(old(connections)) - broken &&
                connections == RemovePairs(old(connections), broken)
      ensures sent == |delivered|
      ensures Valid()
    {
      sent, delivered := 0, {};
      if data.EmptyData? {
        return;
      }
      if Pairs(connections) == {} {
        return;
      }
      if data.Unserialisable? {
        return;
      }
      ghost var start := connections;
      var disconnected;
      sent, delivered, disconnected := SendAll(Pairs(connections), broken);
      DisconnectAll(disconnected);
      ghost var removed := set l | l in disconnected;
      assert removed == Pairs(start) * broken;
      RemoveRegistered(start, broken);
    }

    /** The removal loop of `broadcast`: every collected link is
        disconnected in turn. */
    method DisconnectAll(links: seq<Link>)
      requires Valid()
      modifies this
      ensures connections == RemovePairs(old(connections), set l | l in links)
    {
      ghost var start := connections;
      ghost var done: set<Link> := {};
      RemoveNothing(start);
      var i := 0;
      while i < |links|
        invariant i <= |links|
        invariant done == set l | l in links[..i]
        invariant connections == RemovePairs(start, done)
      {
        var l := links[i];
        WithoutAfterRemove(start, done, l.conn, l.phone);
        Disconnect(l.conn, l.phone);
        assert links[..i + 1] == links[..i] + [l];
        done := done + {l};
        i := i + 1;
      }
      assert links[..i] == links;
    }

    /** `keep_alive`: the receive loop runs until the client goes away,
        which unregisters the connection, or until any other error, which
        propagates and leaves it registered. */
    method KeepAlive(w: ConnId, phone: string, ending: Ending) returns (raised: bool)
      modifies this
      ensures raised <==> ending == OtherError
      ensures ending == ClientDisconnected ==> connections == Without(old(connections), w, phone)
      ensures ending == OtherError ==> connections == old(connections)
      ensures old(Valid()) ==> Valid()
    {
      if ending == ClientDisconnected {
        Disconnect(w, phone);
        return false;
      }
      return true;
    }
  }

  /** A connection whose receive loop failed with an error other than a
      client disconnect stays registered, and only leaves the registry
      when a later broadcast to it fails. */
  method ErroredConnectionLingers(w: ConnId, phone: string, message: string) returns (m: Manager)
    ensures Link(w, phone) !in Pairs(m.connections)
  {
    m := new Manager();
    m.Connect(w, phone);
    var raised := m.KeepAlive(w, phone, OtherError);
    assert Link(w, phone) in Pairs(m.connections);
    ghost var before := m.connections;
    var sent, delivered := m.Broadcast(Serialised(message), {Link(w, phone)});
    RemovePairsPairs(before, {Link(w, phone)});
  }
}
