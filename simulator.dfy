/**
  The data layer of the Internet routing simulator: autonomous systems with
  their neighbour lists and route table, and path-vector advertisements whose
  path lives in a mutable list object that several advertisements may share.
 */
module Simulator {

  datatype Option<+T> = None | Some(value: T)

  /**
    A mutable list of autonomous systems, the object an advertisement's path
    is stored in. It is a heap object of its own because advertisements hold
    it by reference: two advertisements given the same list see each other's
    updates.
   */
  class PathList {
    var items: seq<AutonomousSystem>

    /** A new list object holding `items` (a list display, or `list.copy()`). */
    constructor (items: seq<AutonomousSystem>)
      ensures this.items == items
    {
      this.items := items;
    }
  }

  /**
    A route to `prefix`: the autonomous systems it passed through, nearest hop
    first. `path` is the list object handed to the constructor, never copied
    and never replaced; only its contents change.
   */
  class Advertisement {
    const prefix: string
    const path: PathList

    /** Stores the given list itself, so the caller and this advertisement share it. */
    constructor (prefix: string, path: PathList)
      ensures this.prefix == prefix && this.path == path
    {
      this.prefix := prefix;
      this.path := path;
    }

    /** Number of autonomous systems on the path. */
    function Length(): (n: nat)
      reads path
      ensures n == 0 <==> path.items == []
      ensures n == |path.items|
    {
      |path.items|
    }

    /** Whether `x` (this very object) is on the path: the loop check. */
    function Contains(x: AutonomousSystem): (b: bool)
      reads path
      ensures b <==> exists i :: 0 <= i < |path.items| && path.items[i] == x
    {
      x in path.items
    }

    /** The next hop, the autonomous system prepended last; None exactly when the path is empty. */
    function Head(): (h: Option<AutonomousSystem>)
      reads path
      ensures h.None? <==> Length() == 0
      ensures h.Some? ==> Contains(h.value) && h.value == path.items[0]
    {
      if |path.items| > 0 then Some(path.items[0]) else None
    }

    /**
      Puts `x` in front of the path, in place. The list object is shared with
      every advertisement built around it, and all of them see the change.
     */
    method Prepend(x: AutonomousSystem)
      modifies path
      ensures path.items == [x] + old(path.items)
      ensures Head() == Some(x)
      ensures Length() == old(Length()) + 1
      ensures Contains(x)
      ensures forall y :: y in old(path.items) ==> Contains(y)
      ensures forall i :: 0 <= i < old(Length()) ==> path.items[i + 1] == old(path.items[i])
    {
      path.items := [x] + path.items;
    }

    /** A new advertisement for the same prefix around a new list with the same contents. */
    method Copy() returns (c: Advertisement)
      ensures fresh(c) && fresh(c.path)
      ensures c.prefix == prefix && c.path.items == path.items
    {
      var items := new PathList(path.items);
      c := new Advertisement(prefix, items);
    }
  }

  /**
    An autonomous system: its number and prefix, fixed at construction; the
    customer, provider and peer lists, which only grow; and the route table,
    which maps a prefix to the advertisement selected for it.
   */
  class AutonomousSystem {
    const number: int
    const prefix: string
    var customers: seq<AutonomousSystem>
    var providers: seq<AutonomousSystem>
    var peers: seq<AutonomousSystem>
    var paths: map<string, Advertisement>

    /**
      `sharedDefault` is the one list object that the advertisement
      constructor uses when it is given no path (its default argument, created
      once). The self-route is built that way, so it holds that list.
     */
    constructor (number: int, prefix: string, sharedDefault: PathList)
      ensures this.number == number && this.prefix == prefix
      ensures customers == [] && providers == [] && peers == []
      ensures paths.Keys == {prefix}
      ensures fresh(paths[prefix])
      ensures paths[prefix].prefix == prefix && paths[prefix].path == sharedDefault
    {
      this.number := number;
      this.prefix := prefix;
      customers, providers, peers := [], [], [];
      var selfRoute := new Advertisement(prefix, sharedDefault);
      paths := map[prefix := selfRoute];
    }

    method AddCustomer(customer: AutonomousSystem)
      modifies this
      ensures customers == old(customers) + [customer]
      ensures providers == old(providers) && peers == old(peers) && paths == old(paths)
    {
      customers := customers + [customer];
    }

    method AddProvider(provider: AutonomousSystem)
      modifies this
      ensures providers == old(providers) + [provider]
      ensures customers == old(customers) && peers == old(peers) && paths == old(paths)
    {
      providers := providers + [provider];
    }

    method AddPeer(peer: AutonomousSystem)
      modifies this
      ensures peers == old(peers) + [peer]
      ensures customers == old(customers) && providers == old(providers) && paths == old(paths)
    {
      peers := peers + [peer];
    }
  }

  /**
    Two self-routes built without a path hold the same default list, so a
    prepend on the route of `a` lengthens the route of `b` as well.
   */
  method PrependToSelfRoute(a: AutonomousSystem, b: AutonomousSystem, x: AutonomousSystem)
    requires a.prefix in a.paths && b.prefix in b.paths
    requires a.paths[a.prefix].path == b.paths[b.prefix].path
    modifies a.paths[a.prefix].path
    ensures b.paths == old(b.paths)
    ensures b.paths[b.prefix].Length() == old(b.paths[b.prefix].Length()) + 1
    ensures b.paths[b.prefix].Head() == Some(x)
  {
    a.paths[a.prefix].Prepend(x);
  }

  /** Extending a copy leaves the original's path as it was. */
  method PrependToCopy(a: Advertisement, x: AutonomousSystem) returns (c: Advertisement)
    ensures c.prefix == a.prefix && c.path != a.path
    ensures c.path.items == [x] + a.path.items
    ensures c.Length() == a.Length() + 1 && c.Head() == Some(x)
  {
    c := a.Copy();
    c.Prepend(x);
  }

  /** Extending the original after a copy leaves the copy's path as it was. */
  method PrependAfterCopy(a: Advertisement, x: AutonomousSystem) returns (c: Advertisement)
    modifies a.path
    ensures c.prefix == a.prefix && c.path != a.path
    ensures c.path.items == old(a.path.items)
    ensures a.path.items == [x] + c.path.items
  {
    c := a.Copy();
    a.Prepend(x);
  }
}
