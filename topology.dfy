/**
  Building the network from an already-parsed topology: one autonomous system
  per AS record, registered by number, then the customer/provider and peer
  records wired into the neighbour lists in both directions.

  The specification works on AS numbers: `Register` folds the AS records into
  the number -> prefix table, `Wire` folds the relationship records into
  per-number neighbour lists (`Links`). `LoadTopology` is the imperative loop
  over objects, proved to follow both folds.
 */
module Topology {
  import opened Simulator

  /** A parsed AS record: `number` and `prefix`. */
  datatype AsRecord = AsRecord(number: int, prefix: string)

  /** A parsed relationship record: one with a `customer` key, or a peering. */
  datatype Relationship =
    | CustomerProvider(customer: int, provider: int)
    | Peering(peerA: int, peerB: int)

  /** The neighbour lists of one autonomous system, as AS numbers, in append order. */
  datatype Links = Links(customers: seq<int>, providers: seq<int>, peers: seq<int>)

  /** Either a value or the failed dictionary lookup (KeyError) with the missing AS number. */
  datatype Result<T> = Ok(value: T) | KeyError(key: int)

  // ---------------------------------------------------------------------
  // Registration
  // ---------------------------------------------------------------------

  /** The number -> prefix table after registering `ases` in order; a later record overwrites. */
  function Register(ases: seq<AsRecord>): (r: map<int, string>)
    ensures r.Keys == set i | 0 <= i < |ases| :: ases[i].number
  {
    if ases == [] then map[]
    else
      var init, last := ases[..|ases| - 1], ases[|ases| - 1];
      assert (set i | 0 <= i < |ases| :: ases[i].number)
          == (set i | 0 <= i < |init| :: init[i].number) + {last.number};
      Register(init)[last.number := last.prefix]
  }

  /** The prefix registered for a number is that of the last record with that number. */
  lemma {:induction false} RegisterLastWins(ases: seq<AsRecord>, i: int)
    requires 0 <= i < |ases|
    requires forall j :: i < j < |ases| ==> ases[j].number != ases[i].number
    ensures ases[i].number in Register(ases) && Register(ases)[ases[i].number] == ases[i].prefix
  {
    if i < |ases| - 1 {
      RegisterLastWins(ases[..|ases| - 1], i);
    }
  }

  // ---------------------------------------------------------------------
  // Wiring, one record at a time
  // ---------------------------------------------------------------------

  /** No neighbours yet for every registered number. */
  function NoLinks(keys: set<int>): map<int, Links>
  {
    map k | k in keys :: Links([], [], [])
  }

  /** The starting point of the relationship loop: every registered number, no neighbours. */
  function Initial(ases: seq<AsRecord>): map<int, Links>
  {
    NoLinks(Register(ases).Keys)
  }

  /**
    The number whose lookup fails for `rel`, if any: the customer is looked up
    before the provider, peerA before peerB.
   */
  function UnknownKey(rel: Relationship, keys: set<int>): Option<int>
  {
    match rel
    case CustomerProvider(c, p) =>
      if c !in keys then Some(c) else if p !in keys then Some(p) else None
    case Peering(a, b) =>
      if a !in keys then Some(a) else if b !in keys then Some(b) else None
  }

  predicate Known(rel: Relationship, keys: set<int>)
  {
    UnknownKey(rel, keys).None?
  }

  /** The customers that `rel` gives to `x`. */
  function CustomersAdded(x: int, rel: Relationship): seq<int>
  {
    if rel.CustomerProvider? && rel.provider == x then [rel.customer] else []
  }

  /** The providers that `rel` gives to `x`. */
  function ProvidersAdded(x: int, rel: Relationship): seq<int>
  {
    if rel.CustomerProvider? && rel.customer == x then [rel.provider] else []
  }

  /** The peers that `rel` gives to `x`: peerA gets peerB first, then peerB gets peerA. */
  function PeersAdded(x: int, rel: Relationship): seq<int>
  {
    if rel.Peering? then
      (if rel.peerA == x then [rel.peerB] else []) + (if rel.peerB == x then [rel.peerA] else [])
    else []
  }

  /** The lists of `x`, `k`, with what `rel` gives `x` appended. */
  function Grown(k: Links, x: int, rel: Relationship): Links
  {
    Links(k.customers + CustomersAdded(x, rel), k.providers + ProvidersAdded(x, rel), k.peers + PeersAdded(x, rel))
  }

  /**
    One iteration of the relationship loop. A customer/provider record appends
    the provider to the customer's providers and the customer to the
    provider's customers; a peer record appends each peer to the other's
    peers. Both lookups happen before any list changes.
   */
  function Step(l: map<int, Links>, rel: Relationship): (r: Result<map<int, Links>>)
    ensures r.KeyError? <==> !Known(rel, l.Keys)
    ensures r.KeyError? ==> Some(r.key) == UnknownKey(rel, l.Keys)
    ensures r.Ok? ==> r.value.Keys == l.Keys
    ensures r.Ok? ==> forall x :: x in l ==> r.value[x] == Grown(l[x], x, rel)
  {
    match rel
    case CustomerProvider(c, p) =>
      if c !in l then KeyError(c)
      else if p !in l then KeyError(p)
      else
        var l1 := l[c := l[c].(providers := l[c].providers + [p])];
        Ok(l1[p := l1[p].(customers := l1[p].customers + [c])])
    case Peering(a, b) =>
      if a !in l then KeyError(a)
      else if b !in l then KeyError(b)
      else
        var l1 := l[a := l[a].(peers := l[a].peers + [b])];
        Ok(l1[b := l1[b].(peers := l1[b].peers + [a])])
  }

  /** The relationship loop over `rels` in order, stopping at the first failed lookup. */
  function Wire(l: map<int, Links>, rels: seq<Relationship>): Result<map<int, Links>>
  {
    if rels == [] then Ok(l)
    else
      match Wire(l, rels[..|rels| - 1])
      case KeyError(k) => KeyError(k)
      case Ok(l') => Step(l', rels[|rels| - 1])
  }

  // ---------------------------------------------------------------------
  // Reference definition: what each AS ends up with, record by record
  // ---------------------------------------------------------------------

  function CustomersOf(x: int, rels: seq<Relationship>): seq<int>
  {
    if rels == [] then []
    else CustomersOf(x, rels[..|rels| - 1]) + CustomersAdded(x, rels[|rels| - 1])
  }

  function ProvidersOf(x: int, rels: seq<Relationship>): seq<int>
  {
    if rels == [] then []
    else ProvidersOf(x, rels[..|rels| - 1]) + ProvidersAdded(x, rels[|rels| - 1])
  }

  function PeersOf(x: int, rels: seq<Relationship>): seq<int>
  {
    if rels == [] then []
    else PeersOf(x, rels[..|rels| - 1]) + PeersAdded(x, rels[|rels| - 1])
  }

  /** `i` is the first record that names an unregistered number. */
  predicate FirstUnknownAt(rels: seq<Relationship>, i: int, keys: set<int>)
  {
    0 <= i < |rels| && !Known(rels[i], keys) && forall j :: 0 <= j < i ==> Known(rels[j], keys)
  }

  /** Wiring adds no AS and removes none. */
  lemma {:induction false} WireKeys(l: map<int, Links>, rels: seq<Relationship>)
    requires Wire(l, rels).Ok?
    ensures Wire(l, rels).value.Keys == l.Keys
  {
    if rels != [] {
      WireKeys(l, rels[..|rels| - 1]);
    }
  }

  /** Wiring succeeds exactly when every record names registered numbers only. */
  lemma {:induction false} WireSucceeds(l: map<int, Links>, rels: seq<Relationship>)
    ensures Wire(l, rels).Ok? <==> forall j :: 0 <= j < |rels| ==> Known(rels[j], l.Keys)
  {
    if rels != [] {
      var init, last := rels[..|rels| - 1], rels[|rels| - 1];
      WireSucceeds(l, init);
      if Wire(l, init).Ok? {
        WireKeys(l, init);
        var mid := Wire(l, init).value;
        assert Wire(l, rels) == Step(mid, last);
        if Known(last, l.Keys) {
          assert Wire(l, rels).Ok?;
          forall j | 0 <= j < |rels| ensures Known(rels[j], l.Keys) {
            if j < |init| {
              assert init[j] == rels[j];
            }
          }
        } else {
          assert Wire(l, rels).KeyError?;
        }
      } else {
        assert Wire(l, rels).KeyError?;
        var j :| 0 <= j < |init| && !Known(init[j], l.Keys);
        assert init[j] == rels[j];
      }
    }
  }

  /**
    When wiring fails, the missing number reported is the first lookup that
    fails in the first record naming an unregistered number.
   */
  lemma {:induction false} WireFailure(l: map<int, Links>, rels: seq<Relationship>)
    requires Wire(l, rels).KeyError?
    ensures exists i :: FirstUnknownAt(rels, i, l.Keys) && UnknownKey(rels[i], l.Keys) == Some(Wire(l, rels).key)
  {
    var init, last := rels[..|rels| - 1], rels[|rels| - 1];
    assert forall j :: 0 <= j < |init| ==> init[j] == rels[j];
    match Wire(l, init)
    case KeyError(k) =>
      WireFailure(l, init);
      var i :| FirstUnknownAt(init, i, l.Keys) && UnknownKey(init[i], l.Keys) == Some(k);
      assert FirstUnknownAt(rels, i, l.Keys);
    case Ok(mid) =>
      WireSucceeds(l, init);
      WireKeys(l, init);
      assert Wire(l, rels) == Step(mid, last);
      assert FirstUnknownAt(rels, |rels| - 1, l.Keys);
  }

  /** What wiring leaves in the lists of one AS `x`. */
  lemma {:induction false} WireContentsAt(l: map<int, Links>, rels: seq<Relationship>, x: int)
    requires Wire(l, rels).Ok? && x in l
    ensures x in Wire(l, rels).value
    ensures Wire(l, rels).value[x] == Links(l[x].customers + CustomersOf(x, rels),
                                            l[x].providers + ProvidersOf(x, rels),
                                            l[x].peers + PeersOf(x, rels))
  {
    if rels != [] {
      var init, last := rels[..|rels| - 1], rels[|rels| - 1];
      WireContentsAt(l, init, x);
      var mid := Wire(l, init).value;
      assert Wire(l, rels) == Step(mid, last);
      var m := mid[x];
      AppendAssoc(l[x].customers, CustomersOf(x, init), CustomersAdded(x, last));
      AppendAssoc(l[x].providers, ProvidersOf(x, init), ProvidersAdded(x, last));
      AppendAssoc(l[x].peers, PeersOf(x, init), PeersAdded(x, last));
    }
  }

  lemma AppendAssoc(a: seq<int>, b: seq<int>, c: seq<int>)
    ensures (a + b) + c == a + (b + c)
  {
  }

  /**
    After wiring, each AS has its old lists followed by exactly what the
    records give it, in record order; duplicates are kept.
   */
  lemma {:induction false} WireContents(l: map<int, Links>, rels: seq<Relationship>)
    requires Wire(l, rels).Ok?
    ensures Wire(l, rels).value.Keys == l.Keys
    ensures forall x :: x in l ==>
      Wire(l, rels).value[x] == Links(l[x].customers + CustomersOf(x, rels),
                                      l[x].providers + ProvidersOf(x, rels),
                                      l[x].peers + PeersOf(x, rels))
  {
    WireKeys(l, rels);
    forall x | x in l
      ensures Wire(l, rels).value[x] == Links(l[x].customers + CustomersOf(x, rels),
                                              l[x].providers + ProvidersOf(x, rels),
                                              l[x].peers + PeersOf(x, rels))
    {
      WireContentsAt(l, rels, x);
    }
  }

  /** Once a lookup has failed, later records do not matter. */
  lemma {:induction false} WireStops(l: map<int, Links>, rels: seq<Relationship>, n: int)
    requires 0 <= n <= |rels|
    requires Wire(l, rels[..n]).KeyError?
    ensures Wire(l, rels) == Wire(l, rels[..n])
  {
    if n < |rels| {
      var init := rels[..|rels| - 1];
      assert init[..n] == rels[..n];
      WireStops(l, init, n);
    } else {
      assert rels[..n] == rels;
    }
  }

  // ---------------------------------------------------------------------
  // Every edge is recorded at both ends
  // ---------------------------------------------------------------------

  /**
    Every neighbour relation is seen from both sides, counted with
    multiplicity: y is a provider of x as often as x is a customer of y, and
    y is a peer of x as often as x is a peer of y.
   */
  ghost predicate Mutual(l: map<int, Links>)
  {
    forall x, y :: x in l && y in l ==>
      multiset(l[x].providers)[y] == multiset(l[y].customers)[x] &&
      multiset(l[x].peers)[y] == multiset(l[y].peers)[x]
  }

  /** Every number in a neighbour list is registered. */
  ghost predicate Closed(l: map<int, Links>)
  {
    forall x :: x in l ==>
      (forall y :: y in l[x].customers ==> y in l) &&
      (forall y :: y in l[x].providers ==> y in l) &&
      (forall y :: y in l[x].peers ==> y in l)
  }

  lemma {:induction false} ProvidersMirrorCustomers(x: int, y: int, rels: seq<Relationship>)
    ensures multiset(ProvidersOf(x, rels))[y] == multiset(CustomersOf(y, rels))[x]
  {
    if rels != [] {
      var init, last := rels[..|rels| - 1], rels[|rels| - 1];
      ProvidersMirrorCustomers(x, y, init);
      assert ProvidersOf(x, rels) == ProvidersOf(x, init) + ProvidersAdded(x, last);
      assert CustomersOf(y, rels) == CustomersOf(y, init) + CustomersAdded(y, last);
      assert multiset(ProvidersAdded(x, last))[y] == multiset(CustomersAdded(y, last))[x];
    }
  }

  lemma {:induction false} PeersMirror(x: int, y: int, rels: seq<Relationship>)
    ensures multiset(PeersOf(x, rels))[y] == multiset(PeersOf(y, rels))[x]
  {
    if rels != [] {
      var init, last := rels[..|rels| - 1], rels[|rels| - 1];
      PeersMirror(x, y, init);
      assert PeersOf(x, rels) == PeersOf(x, init) + PeersAdded(x, last);
      assert PeersOf(y, rels) == PeersOf(y, init) + PeersAdded(y, last);
      PeersAddedMirror(x, y, last);
    }
  }

  lemma PeersAddedMirror(x: int, y: int, rel: Relationship)
    ensures multiset(PeersAdded(x, rel))[y] == multiset(PeersAdded(y, rel))[x]
  {
    if rel.Peering? {
      var a, b := rel.peerA, rel.peerB;
      if a == x && b == y {
        assert PeersAdded(x, rel) == [b] + (if b == x then [a] else []);
        assert PeersAdded(y, rel) == (if a == y then [b] else []) + [a];
      } else if a == y && b == x {
        assert PeersAdded(x, rel) == (if a == x then [b] else []) + [a];
        assert PeersAdded(y, rel) == [b] + (if b == y then [a] else []);
      }
    }
  }

  /** Wiring keeps every edge recorded at both ends and names only registered ASes. */
  lemma WireMutual(l: map<int, Links>, rels: seq<Relationship>)
    requires Mutual(l) && Closed(l)
    requires Wire(l, rels).Ok?
    ensures Mutual(Wire(l, rels).value) && Closed(Wire(l, rels).value)
  {
    var r := Wire(l, rels).value;
    WireContents(l, rels);
    WireSucceeds(l, rels);
    forall x, y | x in r && y in r
      ensures multiset(r[x].providers)[y] == multiset(r[y].customers)[x]
      ensures multiset(r[x].peers)[y] == multiset(r[y].peers)[x]
    {
      ProvidersMirrorCustomers(x, y, rels);
      PeersMirror(x, y, rels);
    }
    forall x | x in r
      ensures forall y :: y in r[x].customers ==> y in l
      ensures forall y :: y in r[x].providers ==> y in l
      ensures forall y :: y in r[x].peers ==> y in l
    {
      NamedAreKnown(x, rels, l.Keys);
    }
  }

  /** When every record is known, every number the records add is registered. */
  lemma {:induction false} NamedAreKnown(x: int, rels: seq<Relationship>, keys: set<int>)
    requires forall j :: 0 <= j < |rels| ==> Known(rels[j], keys)
    ensures forall y :: y in CustomersOf(x, rels) ==> y in keys
    ensures forall y :: y in ProvidersOf(x, rels) ==> y in keys
    ensures forall y :: y in PeersOf(x, rels) ==> y in keys
  {
    if rels != [] {
      NamedAreKnown(x, rels[..|rels| - 1], keys);
      assert Known(rels[|rels| - 1], keys);
    }
  }

  // ---------------------------------------------------------------------
  // The objects: registry, neighbour lists and self-routes
  // ---------------------------------------------------------------------

  /** The numbers of a list of AS objects, in order. */
  function Numbers(s: seq<AutonomousSystem>): (r: seq<int>)
    ensures |r| == |s| && forall i :: 0 <= i < |s| ==> r[i] == s[i].number
  {
    seq(|s|, i requires 0 <= i < |s| => s[i].number)
  }

  lemma NumbersAppend(s: seq<AutonomousSystem>, a: AutonomousSystem)
    ensures Numbers(s + [a]) == Numbers(s) + [a.number]
  {
  }

  /** The neighbour lists of an AS object, read as AS numbers. */
  function LinksOf(a: AutonomousSystem): Links
    reads a
  {
    Links(Numbers(a.customers), Numbers(a.providers), Numbers(a.peers))
  }

  /** Every AS in `s` is the object registered under its number. */
  predicate Listed(reg: map<int, AutonomousSystem>, s: seq<AutonomousSystem>)
  {
    forall a :: a in s ==> a.number in reg && reg[a.number] == a
  }

  lemma ListedAppend(reg: map<int, AutonomousSystem>, s: seq<AutonomousSystem>, a: AutonomousSystem)
    requires Listed(reg, s) && a.number in reg && reg[a.number] == a
    ensures Listed(reg, s + [a])
  {
  }

  /**
    The registry maps each number to an AS with that number, and every
    neighbour an AS lists is the registered object of its number.
   */
  ghost predicate Indexed(reg: map<int, AutonomousSystem>)
    reads set n | n in reg :: reg[n]
  {
    (forall n :: n in reg ==> reg[n].number == n) &&
    forall n :: n in reg ==>
      Listed(reg, reg[n].customers) && Listed(reg, reg[n].providers) && Listed(reg, reg[n].peers)
  }

  /**
    Every route table maps exactly its own prefix to an advertisement for that
    prefix built without a path, so holding the shared default list.
   */
  ghost predicate SelfRoutes(reg: map<int, AutonomousSystem>, sharedDefault: PathList)
    reads set n | n in reg :: reg[n]
  {
    forall n :: n in reg ==>
      var a := reg[n];
      a.paths.Keys == {a.prefix} && a.paths[a.prefix].prefix == a.prefix && a.paths[a.prefix].path == sharedDefault
  }

  /** In a list of registered objects, an AS occurs as often as its number. */
  lemma {:induction false} CountByNumber(reg: map<int, AutonomousSystem>, s: seq<AutonomousSystem>, m: int)
    requires Listed(reg, s) && m in reg && reg[m].number == m
    ensures multiset(s)[reg[m]] == multiset(Numbers(s))[m]
  {
    if s != [] {
      var init, last := s[..|s| - 1], s[|s| - 1];
      assert s == init + [last];
      CountByNumber(reg, init, m);
      NumbersAppend(init, last);
    }
  }

  /** The neighbour lists of every registered AS, read as numbers. */
  ghost function Adjacency(reg: map<int, AutonomousSystem>): map<int, Links>
    reads set n | n in reg :: reg[n]
  {
    map n | n in reg :: LinksOf(reg[n])
  }

  /** The object-level reading of `Mutual`: every edge is recorded at both ends. */
  lemma MutualObjects(reg: map<int, AutonomousSystem>)
    requires Indexed(reg) && Mutual(Adjacency(reg))
    ensures forall n, m :: n in reg && m in reg ==>
      multiset(reg[n].providers)[reg[m]] == multiset(reg[m].customers)[reg[n]] &&
      multiset(reg[n].peers)[reg[m]] == multiset(reg[m].peers)[reg[n]]
  {
    var l := Adjacency(reg);
    forall n, m | n in reg && m in reg
      ensures multiset(reg[n].providers)[reg[m]] == multiset(reg[m].customers)[reg[n]]
      ensures multiset(reg[n].peers)[reg[m]] == multiset(reg[m].peers)[reg[n]]
    {
      assert l[n] == LinksOf(reg[n]) && l[m] == LinksOf(reg[m]);
      CountByNumber(reg, reg[n].providers, m);
      CountByNumber(reg, reg[m].customers, n);
      CountByNumber(reg, reg[n].peers, m);
      CountByNumber(reg, reg[m].peers, n);
    }
  }

  /**
    One iteration of the relationship loop on the objects, for a record whose
    numbers are registered: both lookups, then the two appends.
   */
  method Connect(reg: map<int, AutonomousSystem>, rel: Relationship)
    requires Known(rel, reg.Keys) && Indexed(reg)
    modifies set n | n in reg :: reg[n]
    ensures Indexed(reg)
    ensures forall n :: n in reg ==> reg[n].paths == old(reg[n].paths)
    ensures Step(old(Adjacency(reg)), rel) == Ok(Adjacency(reg))
  {
    ghost var before := Adjacency(reg);
    if rel.CustomerProvider? {
      ConnectCustomer(reg, rel);
    } else {
      ConnectPeers(reg, rel);
    }
    assert Step(before, rel).value == Adjacency(reg);
  }

  /** A customer/provider record: the provider joins the customer's providers, then the customer the provider's customers. */
  method ConnectCustomer(reg: map<int, AutonomousSystem>, rel: Relationship)
    requires rel.CustomerProvider? && Known(rel, reg.Keys) && Indexed(reg)
    modifies set n | n in reg :: reg[n]
    ensures Indexed(reg)
    ensures forall n :: n in reg ==> reg[n].paths == old(reg[n].paths)
    ensures forall n :: n in reg ==> LinksOf(reg[n]) == Grown(old(LinksOf(reg[n])), n, rel)
  {
    var c, p := rel.customer, rel.provider;
    var customer, provider := reg[c], reg[p];
    customer.AddProvider(provider);
    provider.AddCustomer(customer);
    forall n | n in reg
      ensures LinksOf(reg[n]) == Grown(old(LinksOf(reg[n])), n, rel)
    {
      if n == c {
        NumbersAppend(old(customer.providers), provider);
      }
      if n == p {
        NumbersAppend(old(provider.customers), customer);
      }
    }
    forall n | n in reg
      ensures Listed(reg, reg[n].customers) && Listed(reg, reg[n].providers) && Listed(reg, reg[n].peers)
    {
      if n == c {
        ListedAppend(reg, old(customer.providers), provider);
      }
      if n == p {
        ListedAppend(reg, old(provider.customers), customer);
      }
    }
  }

  /** A peer record: peerB joins peerA's peers, then peerA joins peerB's peers. */
  method ConnectPeers(reg: map<int, AutonomousSystem>, rel: Relationship)
    requires rel.Peering? && Known(rel, reg.Keys) && Indexed(reg)
    modifies set n | n in reg :: reg[n]
    ensures Indexed(reg)
    ensures forall n :: n in reg ==> reg[n].paths == old(reg[n].paths)
    ensures forall n :: n in reg ==> LinksOf(reg[n]) == Grown(old(LinksOf(reg[n])), n, rel)
  {
    var a, b := rel.peerA, rel.peerB;
    var peerA, peerB := reg[a], reg[b];
    peerA.AddPeer(peerB);
    ghost var mid := peerA.peers;
    peerB.AddPeer(peerA);
    forall n | n in reg
      ensures LinksOf(reg[n]) == Grown(old(LinksOf(reg[n])), n, rel)
    {
      if n == a && n == b {
        NumbersAppend(old(peerA.peers), peerB);
        NumbersAppend(mid, peerA);
      } else if n == a {
        NumbersAppend(old(peerA.peers), peerB);
      } else if n == b {
        NumbersAppend(old(peerB.peers), peerA);
      }
    }
    forall n | n in reg
      ensures Listed(reg, reg[n].customers) && Listed(reg, reg[n].providers) && Listed(reg, reg[n].peers)
    {
      if n == a && n == b {
        ListedAppend(reg, old(peerA.peers), peerB);
        ListedAppend(reg, mid, peerA);
      } else if n == a {
        ListedAppend(reg, old(peerA.peers), peerB);
      } else if n == b {
        ListedAppend(reg, old(peerB.peers), peerA);
      }
    }
  }

  /**
    The first loop: one new autonomous system per AS record, registered under
    its number; a repeated number replaces the object registered before.
   */
  method CreateAses(ases: seq<AsRecord>, sharedDefault: PathList) returns (reg: map<int, AutonomousSystem>)
    ensures reg.Keys == Register(ases).Keys
    ensures forall n :: n in reg ==> fresh(reg[n]) && reg[n].number == n && reg[n].prefix == Register(ases)[n]
    ensures Adjacency(reg) == Initial(ases)
    ensures Indexed(reg)
    ensures SelfRoutes(reg, sharedDefault)
  {
    reg := map[];
    for i := 0 to |ases|
      invariant reg.Keys == Register(ases[..i]).Keys
      invariant forall n :: n in reg ==>
        fresh(reg[n]) && reg[n].number == n && reg[n].prefix == Register(ases[..i])[n]
      invariant forall n :: n in reg ==> reg[n].customers == [] && reg[n].providers == [] && reg[n].peers == []
      invariant SelfRoutes(reg, sharedDefault)
    {
      var a := new AutonomousSystem(ases[i].number, ases[i].prefix, sharedDefault);
      assert ases[..i + 1][..i] == ases[..i];
      reg := reg[a.number := a];
    }
    assert ases[..|ases|] == ases;
  }

  /**
    The second loop: every relationship record in order, stopping at the
    first record that names an unregistered number, which is returned.
   */
  method CreateRelationships(reg: map<int, AutonomousSystem>, rels: seq<Relationship>) returns (missing: Option<int>)
    requires Indexed(reg)
    modifies set n | n in reg :: reg[n]
    ensures missing.Some? <==> Wire(old(Adjacency(reg)), rels).KeyError?
    ensures missing.Some? ==> missing.value == Wire(old(Adjacency(reg)), rels).key
    ensures missing.None? ==> Wire(old(Adjacency(reg)), rels) == Ok(Adjacency(reg)) && Indexed(reg)
    ensures forall n :: n in reg ==> reg[n].paths == old(reg[n].paths)
  {
    ghost var l0 := Adjacency(reg);
    for i := 0 to |rels|
      invariant Wire(l0, rels[..i]) == Ok(Adjacency(reg))
      invariant Indexed(reg)
      invariant forall n :: n in reg ==> reg[n].paths == old(reg[n].paths)
    {
      assert rels[..i + 1][..i] == rels[..i];
      assert Wire(l0, rels[..i + 1]) == Step(Adjacency(reg), rels[i]);
      match UnknownKey(rels[i], reg.Keys)
      case Some(k) =>
        WireStops(l0, rels, i + 1);
        return Some(k);
      case None =>
        Connect(reg, rels[i]);
    }
    assert rels[..|rels|] == rels;
    missing := None;
  }

  /**
    Builds the autonomous systems from the AS records, then wires every
    relationship record in order. A record naming an unregistered number
    ends the load with the failed lookup.
   */
  method LoadTopology(ases: seq<AsRecord>, rels: seq<Relationship>, sharedDefault: PathList)
    returns (r: Result<map<int, AutonomousSystem>>)
    ensures r.KeyError? <==> Wire(Initial(ases), rels).KeyError?
    ensures r.KeyError? ==> r.key == Wire(Initial(ases), rels).key
    ensures r.Ok? ==>
      var reg := r.value;
      && reg.Keys == Register(ases).Keys
      && (forall n :: n in reg ==> fresh(reg[n]) && reg[n].number == n && reg[n].prefix == Register(ases)[n])
      && Wire(Initial(ases), rels) == Ok(Adjacency(reg))
      && Indexed(reg)
      && SelfRoutes(reg, sharedDefault)
    ensures r.Ok? ==>
      var reg := r.value;
      forall n, m :: n in reg && m in reg ==>
        multiset(reg[n].providers)[reg[m]] == multiset(reg[m].customers)[reg[n]] &&
        multiset(reg[n].peers)[reg[m]] == multiset(reg[m].peers)[reg[n]]
  {
    var reg := CreateAses(ases, sharedDefault);
    var missing := CreateRelationships(reg, rels);
    if missing.Some? {
      return KeyError(missing.value);
    }
    ghost var l0 := Initial(ases);
    assert Mutual(l0) && Closed(l0);
    WireMutual(l0, rels);
    MutualObjects(reg);
    r := Ok(reg);
  }
}
