/** The work tree as the linked, mutable structure that is built up path by path. */
module TreeObjects {
  import opened Kube
  import opened Tree
  import Api = AlbApi

  class TreeHost {
    var paths: map<PathKey, TreePath>

    constructor ()
      ensures paths == map[]
    {
      paths := map[];
    }
  }

  class TreeListener {
    const protocol: Api.Protocol
    var hosts: map<string, TreeHost>

    constructor (protocol: Api.Protocol)
      ensures this.protocol == protocol && hosts == map[]
    {
      this.protocol := protocol;
      hosts := map[];
    }
  }

  // ---- the pointer structure at one moment ----

  /** Which object refers to which: the contents of every listener and host object of a tree. */
  datatype Shape = Shape(
    listeners: map<nat, TreeListener>,
    hosts: map<TreeListener, map<string, TreeHost>>,
    paths: map<TreeHost, map<PathKey, TreePath>>)
  {
    ghost predicate Closed() {
      && (forall p | p in listeners :: listeners[p] in hosts)
      && (forall l, h | l in hosts && h in hosts[l] :: hosts[l][h] in paths)
    }

    ghost predicate HasHost(p: nat, h: string)
      requires Closed()
    {
      p in listeners && h in hosts[listeners[p]]
    }

    ghost function HostAt(p: nat, h: string): TreeHost
      requires Closed() && HasHost(p, h)
    {
      hosts[listeners[p]][h]
    }

    /** No two ports share a listener and no two hosts share a host object. */
    ghost predicate Unshared()
      requires Closed()
    {
      && (forall p, q | p in listeners && q in listeners && listeners[p] == listeners[q] :: p == q)
      && (forall p, h, q, g | HasHost(p, h) && HasHost(q, g) && HostAt(p, h) == HostAt(q, g) :: p == q && h == g)
    }

    /** No listener and no host is empty. */
    ghost predicate Inhabited()
      requires Closed()
    {
      && (forall p | p in listeners :: hosts[listeners[p]] != map[])
      && (forall p, h | HasHost(p, h) :: paths[HostAt(p, h)] != map[])
    }

    ghost predicate Holds(slot: Slot)
      requires Closed()
    {
      HasHost(slot.port, slot.host) && slot.key in paths[HostAt(slot.port, slot.host)]
    }

    ghost function PathAt(slot: Slot): TreePath
      requires Closed() && Holds(slot)
    {
      paths[HostAt(slot.port, slot.host)][slot.key]
    }

    /** The flat maps have exactly the stored protocols and paths. */
    ghost predicate Shows(t: WorkTree)
      requires Closed()
    {
      && t.protocols.Keys == listeners.Keys
      && (forall p | p in listeners :: t.protocols[p] == listeners[p].protocol)
      && (forall slot: Slot :: slot in t.paths <==> Holds(slot))
      && (forall slot | slot in t.paths :: t.paths[slot] == PathAt(slot))
    }

    ghost predicate Good(t: WorkTree) {
      Closed() && Unshared() && Inhabited() && Shows(t)
    }

    /** The listener and host are the ones in place for the slot, or new and empty. */
    ghost predicate Fits(slot: Slot, l: TreeListener, h: TreeHost)
      requires Closed()
    {
      && (if slot.port in listeners then listeners[slot.port] == l else l !in hosts)
      && (if HasHost(slot.port, slot.host) then HostAt(slot.port, slot.host) == h else h !in paths)
    }

    ghost function Assign(slot: Slot, l: TreeListener, h: TreeHost, path: TreePath): Shape {
      var hostsOfL: map<string, TreeHost> := if l in hosts then hosts[l] else map[];
      var pathsOfH: map<PathKey, TreePath> := if h in paths then paths[h] else map[];
      Shape(listeners[slot.port := l], hosts[l := hostsOfL[slot.host := h]], paths[h := pathsOfH[slot.key := path]])
    }
  }

  lemma AssignClosed(g: Shape, slot: Slot, l: TreeListener, h: TreeHost, path: TreePath)
    requires g.Closed() && g.Unshared() && g.Fits(slot, l, h)
    ensures var g' := g.Assign(slot, l, h, path);
      && g'.Closed() && g'.HasHost(slot.port, slot.host) && g'.HostAt(slot.port, slot.host) == h
      && (forall p, n | !(p == slot.port && n == slot.host) ::
            && (g'.HasHost(p, n) <==> g.HasHost(p, n))
            && (g.HasHost(p, n) ==> g'.HostAt(p, n) == g.HostAt(p, n) && g.HostAt(p, n) != h
                                    && g'.paths[g.HostAt(p, n)] == g.paths[g.HostAt(p, n)]))
  {
  }

  lemma AssignUnshared(g: Shape, slot: Slot, l: TreeListener, h: TreeHost, path: TreePath)
    requires g.Closed() && g.Unshared() && g.Fits(slot, l, h)
    ensures var g' := g.Assign(slot, l, h, path); g'.Closed() && g'.Unshared()
  {
    AssignClosed(g, slot, l, h, path);
    var g' := g.Assign(slot, l, h, path);
    hide Shape.HasHost, Shape.HostAt, Shape.Closed;
    assert forall p | p in g'.listeners && p != slot.port :: p in g.listeners;
  }

  lemma AssignInhabited(g: Shape, slot: Slot, l: TreeListener, h: TreeHost, path: TreePath)
    requires g.Closed() && g.Unshared() && g.Inhabited() && g.Fits(slot, l, h)
    ensures var g' := g.Assign(slot, l, h, path); g'.Closed() && g'.Inhabited()
  {
    AssignClosed(g, slot, l, h, path);
    var g' := g.Assign(slot, l, h, path);
    assert slot.host in g'.hosts[l];
    assert slot.key in g'.paths[h];
  }

  lemma AssignHolds(g: Shape, slot: Slot, l: TreeListener, h: TreeHost, path: TreePath, s: Slot)
    requires g.Closed() && g.Unshared() && g.Fits(slot, l, h)
    ensures var g' := g.Assign(slot, l, h, path);
      && g'.Closed() && g'.Holds(slot) && g'.PathAt(slot) == path
      && (s != slot ==> (g'.Holds(s) <==> g.Holds(s)) && (g.Holds(s) ==> g'.PathAt(s) == g.PathAt(s)))
  {
    AssignClosed(g, slot, l, h, path);
  }

  lemma AssignShows(g: Shape, slot: Slot, l: TreeListener, h: TreeHost, path: TreePath, t: WorkTree)
    requires g.Closed() && g.Unshared() && g.Fits(slot, l, h) && g.Shows(t)
    ensures var g' := g.Assign(slot, l, h, path);
      g'.Closed() && g'.Shows(t.(protocols := t.protocols[slot.port := l.protocol], paths := t.paths[slot := path]))
  {
    AssignClosed(g, slot, l, h, path);
    hide Shape.Holds, Shape.PathAt, Shape.Unshared, Shape.Closed;
    var g' := g.Assign(slot, l, h, path);
    var t' := t.(protocols := t.protocols[slot.port := l.protocol], paths := t.paths[slot := path]);
    forall s: Slot
      ensures s in t'.paths <==> g'.Holds(s)
      ensures s in t'.paths ==> t'.paths[s] == g'.PathAt(s)
    {
      AssignHolds(g, slot, l, h, path, s);
    }
  }

  lemma AssignGood(g: Shape, slot: Slot, l: TreeListener, h: TreeHost, path: TreePath, t: WorkTree)
    requires g.Good(t) && g.Fits(slot, l, h)
    ensures g.Assign(slot, l, h, path).Good(
              t.(protocols := t.protocols[slot.port := l.protocol], paths := t.paths[slot := path]))
  {
    AssignUnshared(g, slot, l, h, path);
    AssignInhabited(g, slot, l, h, path);
    AssignShows(g, slot, l, h, path, t);
  }

  // ---- the tree object ----

  class TreeObject {
    var listeners: map<nat, TreeListener>
    var targetPools: map<PathRef, Api.TargetPool>
    var certificates: map<string, TreeCertificate>

    // The tree as a value, and the objects it is made of.
    ghost var view: WorkTree
    ghost var listenerObjects: set<TreeListener>
    ghost var hostObjects: set<TreeHost>

    ghost function HostMaps(): map<TreeListener, map<string, TreeHost>>
      reads this`listenerObjects, listenerObjects
    {
      map l | l in listenerObjects :: l.hosts
    }

    ghost function PathMaps(): map<TreeHost, map<PathKey, TreePath>>
      reads this`hostObjects, hostObjects
    {
      map h | h in hostObjects :: h.paths
    }

    ghost function Snapshot(): Shape
      reads this`listeners, this`listenerObjects, this`hostObjects, listenerObjects, hostObjects
    {
      Shape(listeners, HostMaps(), PathMaps())
    }

    ghost predicate Valid()
      reads this, listenerObjects, hostObjects
    {
      Snapshot().Good(view) && view.pools == targetPools && view.certificates == certificates
    }

    constructor ()
      ensures Valid() && view == EMPTY_TREE && listenerObjects == {} && hostObjects == {}
    {
      listeners, targetPools, certificates := map[], map[], map[];
      view, listenerObjects, hostObjects := EMPTY_TREE, {}, {};
    }

    method AddCertificate(secret: Secret, fingerprint: string, port: nat)
      requires Valid()
      modifies this`certificates, this`view
      ensures Valid() && view == Tree.AddCertificate(old(view), secret, fingerprint, port)
    {
      hide Shape.Closed, Shape.Unshared, Shape.Inhabited, Shape.Holds, Shape.PathAt;
      ghost var g := Snapshot();
      if fingerprint !in certificates {
        certificates := certificates[fingerprint := TreeCertificate(secret.publicKey, secret.privateKey, {})];
      }
      var known := certificates[fingerprint];
      certificates := certificates[fingerprint := known.(ports := known.ports + {port})];
      view := Tree.AddCertificate(view, secret, fingerprint, port);
      assert certificates == view.certificates;
      assert Snapshot() == g;
    }

    method AddPool(ref: PathRef, pool: Api.TargetPool)
      requires Valid()
      modifies this`targetPools, this`view
      ensures Valid() && view == Tree.AddPool(old(view), ref, pool)
    {
      hide Shape.Closed, Shape.Unshared, Shape.Inhabited, Shape.Holds, Shape.PathAt;
      ghost var g := Snapshot();
      targetPools := targetPools[ref := pool];
      view := Tree.AddPool(view, ref, pool);
      assert Snapshot() == g;
    }

    /** Stores the path under the port, creating listener and host on first use, or reports why it cannot. */
    method AddPath(ing: Ingress, r: nat, p: nat, port: nat, protocol: Api.Protocol, webSocket: bool)
      returns (added: bool, events: seq<ErrorEvent>)
      requires Valid() && r < |ing.rules| && p < ing.PathCount(r)
      modifies this, listenerObjects, hostObjects
      ensures Valid() && fresh(listenerObjects - old(listenerObjects)) && fresh(hostObjects - old(hostObjects))
      ensures Tree.AddPath(Build(old(view), []), ing, r, p, port, protocol, webSocket)
              == Added(Build(view, events), added)
      ensures targetPools == old(targetPools) && certificates == old(certificates)
    {
      hide Shape.Good, Shape.Fits, KeyOf, RefOf;
      var slot := SlotOf(ing, r, p, port);
      var listener := ListenerFor(slot, protocol);
      if listener.protocol != protocol {
        return false, [ErrorEvent(ing.Key(), ProtocolConflict, [])];
      }
      var host := HostFor(slot, listener);
      if slot.key in host.paths {
        return false, [ErrorEvent(ing.Key(), PathExists, [r, p])];
      }
      Store(slot, listener, host, TreePath(slot.key, RefOf(ing, r, p), webSocket));
      return true, [];
    }

    method ListenerFor(slot: Slot, protocol: Api.Protocol) returns (listener: TreeListener)
      requires Valid()
      ensures slot.port in listeners ==> listener == listeners[slot.port]
      ensures slot.port !in listeners ==> fresh(listener) && listener.protocol == protocol && listener.hosts == map[]
      ensures slot.port in view.protocols <==> slot.port in listeners
      ensures slot.port in view.protocols ==> view.protocols[slot.port] == listener.protocol
      ensures slot.port in listeners ==> listener in listenerObjects
    {
      hide Shape.HasHost, Shape.HostAt, Shape.Unshared, Shape.Inhabited, Shape.Holds, Shape.PathAt;
      if slot.port in listeners {
        listener := listeners[slot.port];
        assert listener in Snapshot().hosts;
      } else {
        listener := new TreeListener(protocol);
      }
    }

    method HostFor(slot: Slot, listener: TreeListener) returns (host: TreeHost)
      requires Valid()
      requires if slot.port in listeners then listener == listeners[slot.port]
               else listener !in listenerObjects && listener.hosts == map[]
      ensures Snapshot().Closed() && Snapshot().Fits(slot, listener, host)
      ensures host !in hostObjects ==> fresh(host) && host.paths == map[]
      ensures slot.key in host.paths <==> slot in view.paths
    {
      hide Shape.Unshared, Shape.Inhabited, Shape.PathAt;
      ghost var g := Snapshot();
      assert g.HasHost(slot.port, slot.host) <==> slot.host in listener.hosts;
      if slot.host in listener.hosts {
        host := listener.hosts[slot.host];
      } else {
        host := new TreeHost();
      }
      assert g.Holds(slot) <==> slot.key in host.paths;
    }

    /** Listener and host are assigned whether they existed or not; an existing one is the same object. */
    method Store(slot: Slot, listener: TreeListener, host: TreeHost, path: TreePath)
      requires Valid() && Snapshot().Closed() && Snapshot().Fits(slot, listener, host)
      requires listener !in listenerObjects ==> listener.hosts == map[]
      requires host !in hostObjects ==> host.paths == map[]
      modifies this, listener, host
      ensures Valid()
      ensures listenerObjects == old(listenerObjects) + {listener} && hostObjects == old(hostObjects) + {host}
      ensures view == old(view).(protocols := old(view).protocols[slot.port := listener.protocol],
                                 paths := old(view).paths[slot := path])
      ensures targetPools == old(targetPools) && certificates == old(certificates)
    {
      hide Shape.Good, Shape.Fits, Shape.Assign, Shape.Closed;
      AssignGood(Snapshot(), slot, listener, host, path, view);
      Link(slot, listener, host, path);
      view := view.(protocols := view.protocols[slot.port := listener.protocol], paths := view.paths[slot := path]);
    }

    method Link(slot: Slot, listener: TreeListener, host: TreeHost, path: TreePath)
      requires listener !in listenerObjects ==> listener.hosts == map[]
      requires host !in hostObjects ==> host.paths == map[]
      modifies this`listeners, this`listenerObjects, this`hostObjects, listener, host
      ensures Snapshot() == old(Snapshot()).Assign(slot, listener, host, path)
      ensures listenerObjects == old(listenerObjects) + {listener} && hostObjects == old(hostObjects) + {host}
    {
      hide HostMaps, PathMaps;
      listeners := listeners[slot.port := listener];
      SetHost(listener, slot.host, host);
      SetPath(host, slot.key, path);
    }

    method SetHost(listener: TreeListener, name: string, host: TreeHost)
      requires listener !in listenerObjects ==> listener.hosts == map[]
      modifies this`listenerObjects, listener
      ensures listenerObjects == old(listenerObjects) + {listener}
      ensures var hosts := old(HostMaps()); var none: map<string, TreeHost> := map[];
        HostMaps() == hosts[listener := (if listener in hosts then hosts[listener] else none)[name := host]]
    {
      listener.hosts := listener.hosts[name := host];
      listenerObjects := listenerObjects + {listener};
    }

    method SetPath(host: TreeHost, key: PathKey, path: TreePath)
      requires host !in hostObjects ==> host.paths == map[]
      modifies this`hostObjects, host
      ensures hostObjects == old(hostObjects) + {host}
      ensures var paths := old(PathMaps()); var none: map<PathKey, TreePath> := map[];
        PathMaps() == paths[host := (if host in paths then paths[host] else none)[key := path]]
    {
      host.paths := host.paths[key := path];
      hostObjects := hostObjects + {host};
    }
  }
}
