# Internet routing simulator: the data layer

This project models, in Dafny, the part of the Internet routing simulator
(`simulator.py`) that is implemented: the path-vector `Advertisement`, the
`AutonomousSystem` with its neighbour lists and route table, and the two
loops of `load_topology` that register the autonomous systems by number and
wire the customer/provider and peer relationships. The route computation
itself (`send_advertisement`, `recv_advertisement`, `compute_paths`) has no
code and is not modelled.

Two files, one module each:

- `simulator.dfy`, module `Simulator`: the classes. An advertisement's path
  lives in a `PathList` object (a Python list), and `Advertisement.path` is a
  constant reference to it: the constructor keeps the list it is given, so
  advertisements built around the same list see each other's `Prepend`.
  The list object that `Advertisement(prefix)` uses when no path is given is
  created once, when the constructor is defined, and shared by every such
  call; the model passes that one object explicitly (`sharedDefault`), and
  every autonomous system's self-route holds it. `Copy` allocates a new list,
  so a copy and its original are independent. Three small client methods
  (`PrependToSelfRoute`, `PrependToCopy`, `PrependAfterCopy`) spell out what
  a caller observes in each case.
- `topology.dfy`, module `Topology`: `load_topology` after the JSON has been
  parsed into `AsRecord` and `Relationship` values. Its specification works
  on AS numbers: `Register` folds the AS records into the number -> prefix
  table, `Wire` folds the relationship records, one `Step` per record, into
  per-number neighbour lists (`Links`), and fails with `KeyError(n)` at the
  first lookup of an unregistered number. `CustomersOf`, `ProvidersOf` and
  `PeersOf` say independently, per autonomous system, what the records give
  it; `WireContents` proves the fold agrees with them, and `WireMutual` that
  every edge is recorded at both ends. `LoadTopology` and the two loop
  methods under it work on the objects and are proved to follow the folds.

Where the design description of this system and the code differ, the model
follows the code: neighbour lists are lists in append order that keep
duplicates and self-references, not sets; a repeated AS number silently
replaces the earlier autonomous system instead of being rejected; an unknown
number ends the load with the dictionary's `KeyError`, after the records
before it have already been applied to the objects; an advertisement's path
is changed in place and may be shared, not copied on every extension; and
the self-route holds the shared default list (initially empty), not a path
naming the origin.

## Model

| member | source | states |
|---|---|---|
| `Simulator.PathList.constructor` | simulator.py:84-86 | a new list object holding exactly the given autonomous systems |
| `Simulator.Advertisement.constructor` | simulator.py:57-59 | the advertisement keeps the given prefix and the very list object it was given, not a copy |
| `Simulator.Advertisement.Length` | simulator.py:69-71 | the number of hops on the path; zero exactly when the path is empty |
| `Simulator.Advertisement.Contains` | simulator.py:73-75 | true exactly when some position of the path holds that very autonomous system |
| `Simulator.Advertisement.Head` | simulator.py:77-82 | `None` exactly when the length is zero; otherwise the first hop, which the path contains |
| `Simulator.Advertisement.Prepend` | simulator.py:65-67 | the list becomes `[x]` followed by the old path: `x` is the head, the length grows by one, `x` and every AS on the old path are contained, old hops move right by one |
| `Simulator.Advertisement.Copy` | simulator.py:84-86 | a new advertisement around a new list, with the same prefix and the same hops |
| `Simulator.AutonomousSystem.constructor` | simulator.py:11-17 | number and prefix as given; empty customer, provider and peer lists; a route table whose only key is the own prefix, mapped to a new advertisement for that prefix holding the shared default list |
| `Simulator.AutonomousSystem.AddCustomer` | simulator.py:29-31 | appends exactly the given AS to the customers; providers, peers and route table unchanged |
| `Simulator.AutonomousSystem.AddProvider` | simulator.py:33-35 | appends exactly the given AS to the providers; customers, peers and route table unchanged |
| `Simulator.AutonomousSystem.AddPeer` | simulator.py:37-39 | appends exactly the given AS to the peers; customers, providers and route table unchanged |
| `Simulator.PrependToSelfRoute` | simulator.py:57-67 | when two self-routes hold the same default list, a prepend on one lengthens the other by one and makes `x` its head |
| `Simulator.PrependToCopy` | simulator.py:84-86 | prepending to a copy leaves the original's list as it was: the copy is `[x]` followed by the original |
| `Simulator.PrependAfterCopy` | simulator.py:84-86 | prepending to the original after a copy leaves the copy holding the old path |
| `Topology.Register` | simulator.py:99-102 | the registered numbers are exactly the numbers of the AS records |
| `Topology.RegisterLastWins` | simulator.py:100-102 | a number's prefix is that of the last record with that number: a repeated number overwrites |
| `Topology.CreateAses` | simulator.py:98-102 | one new AS per registered number, carrying that number and the registered prefix, with no neighbours and a self-route holding the shared default list |
| `Topology.Step` | simulator.py:105-115 | one record fails exactly when it names an unregistered number, with the first failing lookup; otherwise each AS gets exactly what the record gives it appended, keys unchanged |
| `Topology.WireKeys` | simulator.py:104-115 | wiring neither adds nor removes an autonomous system |
| `Topology.WireSucceeds` | simulator.py:105-113 | wiring succeeds exactly when every record names registered numbers only |
| `Topology.WireFailure` | simulator.py:105-113 | a failed wiring reports the missing number of the first failing lookup (customer before provider, peerA before peerB) in the first record naming an unregistered number |
| `Topology.WireStops` | simulator.py:105-113 | once a lookup has failed, the records after it change nothing |
| `Topology.WireContentsAt` | simulator.py:105-115 | after wiring, an AS's lists are its old lists followed by what the records give it, in record order, duplicates kept |
| `Topology.WireContents` | simulator.py:105-115 | the same for every AS at once |
| `Topology.ProvidersMirrorCustomers` | simulator.py:106-110 | the records make y a provider of x exactly as often as they make x a customer of y |
| `Topology.PeersMirror` | simulator.py:111-115 | the records make y a peer of x exactly as often as they make x a peer of y |
| `Topology.WireMutual` | simulator.py:105-115 | wiring keeps every edge recorded at both ends, with multiplicity, and lists only registered numbers |
| `Topology.MutualObjects` | simulator.py:105-115 | on the objects: y is among x's providers as often as x is among y's customers, and likewise for peers |
| `Topology.ConnectCustomer` | simulator.py:106-110 | the provider is appended to the customer's providers and the customer to the provider's customers; nothing else changes |
| `Topology.ConnectPeers` | simulator.py:111-115 | each peer is appended to the other's peers (twice to its own list for a self-peering); nothing else changes |
| `Topology.Connect` | simulator.py:105-115 | one loop iteration on the objects does what `Step` does on the numbers |
| `Topology.CreateRelationships` | simulator.py:104-115 | the relationship loop on the objects follows `Wire`: it reports the missing number exactly when `Wire` fails, and otherwise leaves neighbour lists equal to `Wire`'s result |
| `Topology.LoadTopology` | simulator.py:92-117 | fails exactly when `Wire` fails, with its key; otherwise returns a registry of new ASes keyed by number, with the registered prefixes, wired as `Wire` says, every edge recorded at both ends, and every self-route holding the shared default list |

## Left out

- Opening and parsing the JSON topology file (simulator.py:95-96): file I/O. The model takes the parsed AS and relationship records; a record with a missing key or a value of the wrong type is not modelled, and a record's kind (`customer` key present or not) is its `Relationship` variant.
- Argument parsing and `main` (simulator.py:131-148): command-line plumbing.
- The `__str__` methods and the path dump (simulator.py:49-54, simulator.py:88-90, simulator.py:125-129): text formatting and console output.
- `send_advertisement`, `recv_advertisement` and `compute_paths` (simulator.py:41-47, simulator.py:119-124): their bodies are empty, so route ranking, export policy and convergence have no code to model.
- The read-only `number` and `prefix` properties (simulator.py:19-27) are the constant fields `number` and `prefix`; there is no separate member for them.
- Topology.CreateRelationships: on a failed lookup it states only the missing number, not the neighbour lists already appended for earlier records, which the code leaves in place on objects no caller can reach any more.
- Topology.LoadTopology: the objects built for AS records whose number was later registered again are created but, as in the code, not returned; nothing is stated about them.
