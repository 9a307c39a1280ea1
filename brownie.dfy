/** The part of the brownie framework and of the chain that the deployment
    scripts act on, as a value (`State`) and as a mutable object (`Session`).

    A `State` holds what one run of a script sees: the active network, the
    brownie configuration loaded at start-up, the local accounts, the
    `brownie-config.yaml` file on disk, the per-kind containers of deployed
    mock contracts, the VRF coordinator contracts on the chain, and the
    confirmed transactions. The chain-side operations the scripts call
    (`deploy`, `createSubscription`, `getSubscription`, `fundSubscription`,
    `transferAndCall`, `addConsumer`) and the YAML rewrite are functions from
    a state to a result and a new state; a reverted call changes nothing. */
module Brownie {
  import opened Wrappers
  import Encoding

  /** A 160-bit account or contract address, by its numeric value. */
  type Address = nat

  /** The three contract types the scripts resolve or mock:
      MockV3Aggregator, VRFCoordinatorV2Mock and LinkToken. */
  datatype ContractKind = PriceFeed | VrfCoordinator | LinkToken

  /** A contract object bound to an address. */
  datatype Contract = Contract(kind: ContractKind, address: Address)

  /** An account object: one of the local accounts, one loaded from the
      keystore by id, or one added from a private key. */
  datatype Account = Stored(address: Address) | Keystore(id: string) | PrivateKey(key: string)

  /** One entry of `config["networks"]`: `subscription_id`, `fund_amount`
      and the contract addresses keyed by contract name. */
  datatype NetworkConfig = NetworkConfig(
    subscriptionId: Option<nat>,
    fundAmount: Option<nat>,
    addresses: map<string, Address>)

  /** A VRF subscription as `getSubscription` reports it: its balance (in
      units of 10^-18 LINK) and its consumer addresses. */
  datatype Subscription = Subscription(balance: nat, consumers: seq<Address>)

  /** The state of one VRF coordinator contract: the last subscription ID
      it handed out and the subscriptions by ID. */
  datatype Coordinator = Coordinator(lastSubId: nat, subs: map<nat, Subscription>)

  /** The event `createSubscription` emits. */
  datatype Event = SubscriptionCreated(subId: nat, owner: Account)

  /** A state-changing call sent to the chain. */
  datatype Call =
    | Deployment(kind: ContractKind, args: seq<nat>)
    | SubscriptionCreation(coordinator: Address)
    | SubscriptionFunding(coordinator: Address, subId: nat, amount: nat)
    | LinkTransfer(token: Address, to: Address, amount: nat, data: seq<Encoding.uint8>)
    | ConsumerAddition(coordinator: Address, subId: nat, consumer: Address)

  /** A confirmed transaction. */
  datatype Tx = Tx(sender: Account, call: Call)

  /** The exceptions the scripts can raise. */
  datatype Error =
    | KeyError(key: string)
    | IndexError(index: int)
    | OverflowError
    | Reverted(reason: string)

  datatype State = State(
    network: string,                        // network.show_active()
    config: map<string, NetworkConfig>,     // config["networks"], loaded at start-up
    walletKey: Option<string>,              // config["wallets"]["key_playground"]
    accounts: seq<Address>,                 // the local accounts
    configFile: map<string, NetworkConfig>, // "networks" of brownie-config.yaml on disk
    containers: map<ContractKind, seq<Address>>, // deployed mocks, oldest first
    nextAddress: nat,                       // the address the next deployment gets
    coordinators: map<Address, Coordinator>,
    history: seq<Tx>)

  /** Subscription IDs are `uint64`: every ID is below this bound. */
  const MaxSubId: nat := Encoding.Pow256(Encoding.Uint64Bytes)

  function Deployed(st: State, kind: ContractKind): seq<Address>
  {
    if kind in st.containers then st.containers[kind] else []
  }

  /** What the coordinator contract keeps true of its own state: IDs are
      handed out by a `uint64` counter starting at 1. */
  predicate ValidCoordinator(c: Coordinator)
  {
    && c.lastSubId < MaxSubId
    && forall id :: id in c.subs ==> 0 < id <= c.lastSubId
  }

  /** Every coordinator keeps its own invariant, and every address in use
      (a coordinator's or a deployed mock's) was handed out before
      `nextAddress`, so a new deployment never lands on an existing one. */
  predicate Valid(st: State)
  {
    && (forall a :: a in st.coordinators ==> ValidCoordinator(st.coordinators[a]) && a < st.nextAddress)
    && (forall k, i :: 0 <= i < |Deployed(st, k)| ==> Deployed(st, k)[i] < st.nextAddress)
  }

  /** Validity depends only on the coordinators, the containers and the
      next address. */
  lemma ValidFrame(st: State, post: State)
    requires post.coordinators == st.coordinators && post.containers == st.containers
    requires post.nextAddress == st.nextAddress
    ensures Valid(st) <==> Valid(post)
  {
    assert forall k :: Deployed(post, k) == Deployed(st, k);
  }

  /** Replacing an existing coordinator by one that keeps the coordinator
      invariant keeps the state valid. */
  lemma ValidUpdate(st: State, post: State, coordinator: Address, c: Coordinator)
    requires post.coordinators == st.coordinators[coordinator := c] && post.containers == st.containers
    requires post.nextAddress == st.nextAddress
    ensures Valid(st) && coordinator in st.coordinators && ValidCoordinator(c) ==> Valid(post)
  {
    if Valid(st) && coordinator in st.coordinators && ValidCoordinator(c) {
      forall a | a in post.coordinators
        ensures ValidCoordinator(post.coordinators[a]) && a < post.nextAddress
      {
        assert a == coordinator || a in st.coordinators;
      }
      assert forall k :: Deployed(post, k) == Deployed(st, k);
    }
  }

  /** `post` differs from `st` at most by newly deployed mocks: the file on
      disk is the same, every existing coordinator is unchanged, a
      coordinator that is new has no subscriptions, and every container only
      grew. */
  predicate MocksAdded(st: State, post: State)
  {
    && post.configFile == st.configFile
    && (forall a :: a in st.coordinators ==> a in post.coordinators && post.coordinators[a] == st.coordinators[a])
    && (forall a :: a in post.coordinators && a !in st.coordinators ==> post.coordinators[a] == Coordinator(0, map[]))
    && (forall k :: Deployed(st, k) <= Deployed(post, k))
  }

  /** `post` is a later state of the same run: the run's inputs are the same
      and transactions were only appended. */
  predicate Evolves(st: State, post: State)
  {
    && post.network == st.network
    && post.config == st.config
    && post.walletKey == st.walletKey
    && post.accounts == st.accounts
    && st.history <= post.history
  }

  lemma EvolvesTransitive(a: State, b: State, c: State)
    requires Evolves(a, b) && Evolves(b, c)
    ensures Evolves(a, c)
  {
  }

  /** A later run of the scripts on the same persistent network: the chain
      and the file on disk are kept, and the configuration is loaded afresh
      from the file. */
  function NextRun(st: State): (r: State)
    ensures r.config == st.configFile
    ensures r.configFile == st.configFile && r.coordinators == st.coordinators
  {
    st.(config := st.configFile)
  }

  // ---------------------------------------------------------------------
  // Counting the transactions of one kind

  datatype CallTag = Deploys | Creates | Funds | AddsConsumer

  function TagOf(c: Call): CallTag
  {
    match c
    case Deployment(_, _) => Deploys
    case SubscriptionCreation(_) => Creates
    case SubscriptionFunding(_, _, _) => Funds
    case LinkTransfer(_, _, _, _) => Funds
    case ConsumerAddition(_, _, _) => AddsConsumer
  }

  /** The number of transactions in `h` whose call is of kind `tag`. */
  function Count(h: seq<Tx>, tag: CallTag): (n: nat)
    ensures n <= |h|
  {
    if h == [] then 0
    else Count(h[..|h| - 1], tag) + (if TagOf(h[|h| - 1].call) == tag then 1 else 0)
  }

  /** Appending one transaction adds one to the count of its kind only. */
  lemma CountSnoc(h: seq<Tx>, tx: Tx)
    ensures forall tag :: Count(h + [tx], tag) == Count(h, tag) + (if TagOf(tx.call) == tag then 1 else 0)
  {
    assert (h + [tx])[..|h|] == h;
  }

  // ---------------------------------------------------------------------
  // Chain primitives and the configuration file

  /** `Container.deploy(*args, {"from": sender})`: the new contract gets a
      fresh address and is appended to its kind's container; a coordinator
      starts with no subscriptions, and the other coordinators are kept. */
  function DeployOn(st: State, sender: Account, kind: ContractKind, args: seq<nat>): (out: (Address, State))
    ensures out.0 == st.nextAddress && out.1.nextAddress == st.nextAddress + 1
    ensures Valid(st) ==> out.0 !in st.coordinators && forall k :: out.0 !in Deployed(st, k)
    ensures out.1.coordinators ==
      (if kind == VrfCoordinator then st.coordinators[out.0 := Coordinator(0, map[])] else st.coordinators)
    ensures Valid(st) ==> MocksAdded(st, out.1)
    ensures Deployed(out.1, kind) == Deployed(st, kind) + [out.0]
    ensures forall k :: k != kind ==> Deployed(out.1, k) == Deployed(st, k)
    ensures out.1.history == st.history + [Tx(sender, Deployment(kind, args))]
    ensures Valid(st) ==> Valid(out.1)
    ensures Evolves(st, out.1) && out.1.configFile == st.configFile
    ensures forall t :: Count(out.1.history, t) == Count(st.history, t) + (if t == Deploys then 1 else 0)
  {
    CountSnoc(st.history, Tx(sender, Deployment(kind, args)));
    var a := st.nextAddress;
    var coordinators :=
      if kind == VrfCoordinator then st.coordinators[a := Coordinator(0, map[])] else st.coordinators;
    (a, st.(containers := st.containers[kind := Deployed(st, kind) + [a]],
            nextAddress := a + 1,
            coordinators := coordinators,
            history := st.history + [Tx(sender, Deployment(kind, args))]))
  }

  /** `coordinator.getSubscription(id)`: a view call that reverts for an
      unknown subscription. */
  function SubscriptionOf(st: State, coordinator: Address, id: nat): (r: Result<Subscription, Error>)
    ensures r.Ok? <==> coordinator in st.coordinators && id in st.coordinators[coordinator].subs
    ensures r.Ok? ==> r.value == st.coordinators[coordinator].subs[id]
  {
    if coordinator in st.coordinators && id in st.coordinators[coordinator].subs then
      Ok(st.coordinators[coordinator].subs[id])
    else Err(Reverted("InvalidSubscription"))
  }

  /** `coordinator.createSubscription({"from": sender})`: the counter moves
      to the next ID, which starts with no balance and no consumers and is
      announced by the one event of the transaction. */
  function CreateSubscriptionOn(st: State, sender: Account, coordinator: Address): (out: (Result<seq<Event>, Error>, State))
    ensures out.0.Ok? <==> coordinator in st.coordinators && st.coordinators[coordinator].lastSubId + 1 < MaxSubId
    ensures out.0.Err? ==> out.1 == st
    ensures out.0.Ok? ==>
      && coordinator in st.coordinators && coordinator in out.1.coordinators
      && var id := st.coordinators[coordinator].lastSubId + 1;
      && out.0.value == [SubscriptionCreated(id, sender)]
      && id < MaxSubId
      && out.1.coordinators == st.coordinators[coordinator :=
           Coordinator(id, st.coordinators[coordinator].subs[id := Subscription(0, [])])]
      && out.1.history == st.history + [Tx(sender, SubscriptionCreation(coordinator))]
      && (ValidCoordinator(st.coordinators[coordinator]) ==> id !in st.coordinators[coordinator].subs)
    ensures Valid(st) ==> Valid(out.1)
    ensures Evolves(st, out.1) && out.1.configFile == st.configFile && out.1.containers == st.containers
    ensures forall t :: Count(out.1.history, t) == Count(st.history, t) + (if out.0.Ok? && t == Creates then 1 else 0)
  {
    CountSnoc(st.history, Tx(sender, SubscriptionCreation(coordinator)));
    if coordinator !in st.coordinators then (Err(Reverted("no coordinator at this address")), st)
    else
      var c := st.coordinators[coordinator];
      if c.lastSubId + 1 >= MaxSubId then (Err(Reverted("subscription ID overflow")), st)
      else
        var id := c.lastSubId + 1;
        var post := st.(coordinators := st.coordinators[coordinator := Coordinator(id, c.subs[id := Subscription(0, [])])],
                        history := st.history + [Tx(sender, SubscriptionCreation(coordinator))]);
        ValidUpdate(st, post, coordinator, Coordinator(id, c.subs[id := Subscription(0, [])]));
        (Ok([SubscriptionCreated(id, sender)]), post)
  }

  /** Adds `amount` to the balance of an existing subscription. */
  function Credit(st: State, coordinator: Address, id: nat, amount: nat): (r: State)
    requires coordinator in st.coordinators && id in st.coordinators[coordinator].subs
    ensures coordinator in r.coordinators && id in r.coordinators[coordinator].subs
    ensures r.coordinators[coordinator].subs[id].balance == st.coordinators[coordinator].subs[id].balance + amount
    ensures r.coordinators[coordinator].subs[id].consumers == st.coordinators[coordinator].subs[id].consumers
    ensures r.coordinators[coordinator].lastSubId == st.coordinators[coordinator].lastSubId
    ensures r.coordinators[coordinator].subs.Keys == st.coordinators[coordinator].subs.Keys
    ensures Valid(st) ==> Valid(r)
  {
    var c := st.coordinators[coordinator];
    var s := c.subs[id];
    var r := st.(coordinators := st.coordinators[coordinator :=
      c.(subs := c.subs[id := s.(balance := s.balance + amount)])]);
    ValidUpdate(st, r, coordinator, c.(subs := c.subs[id := s.(balance := s.balance + amount)]));
    r
  }

  /** `coordinator.fundSubscription(id, amount)` of the mock coordinator. */
  function FundSubscriptionOn(st: State, sender: Account, coordinator: Address, id: nat, amount: nat): (out: (Result<(), Error>, State))
    ensures out.0.Err? <==> SubscriptionOf(st, coordinator, id).Err?
    ensures out.0.Err? ==> out.1 == st
    ensures out.0.Ok? ==>
      out.1 == Credit(st, coordinator, id, amount).(history := st.history + [Tx(sender, SubscriptionFunding(coordinator, id, amount))])
    ensures Valid(st) ==> Valid(out.1)
    ensures Evolves(st, out.1) && out.1.configFile == st.configFile && out.1.containers == st.containers
    ensures forall t :: Count(out.1.history, t) == Count(st.history, t) + (if out.0.Ok? && t == Funds then 1 else 0)
  {
    CountSnoc(st.history, Tx(sender, SubscriptionFunding(coordinator, id, amount)));
    if SubscriptionOf(st, coordinator, id).Err? then (Err(Reverted("InvalidSubscription")), st)
    else
      var credited := Credit(st, coordinator, id, amount);
      ValidFrame(credited, credited.(history := st.history + [Tx(sender, SubscriptionFunding(coordinator, id, amount))]));
      (Ok(()), credited.(history := st.history + [Tx(sender, SubscriptionFunding(coordinator, id, amount))]))
  }

  /** `token.transferAndCall(to, amount, data)`: the token calls the
      coordinator's `onTokenTransfer`, which decodes the subscription ID from
      `data` and credits `amount` to it, or reverts. */
  function TransferAndCallOn(st: State, sender: Account, token: Address, to: Address, amount: nat, data: seq<Encoding.uint8>): (out: (Result<(), Error>, State))
    ensures out.0.Ok? <==>
      && to in st.coordinators
      && Encoding.DecodeUint64(data).Some?
      && Encoding.DecodeUint64(data).value in st.coordinators[to].subs
    ensures out.0.Err? ==> out.1 == st
    ensures out.0.Ok? ==>
      && Encoding.DecodeUint64(data).Some?
      && var id := Encoding.DecodeUint64(data).value;
      && SubscriptionOf(st, to, id).Ok?
      && out.1 == Credit(st, to, id, amount).(history := st.history + [Tx(sender, LinkTransfer(token, to, amount, data))])
    ensures Valid(st) ==> Valid(out.1)
    ensures Evolves(st, out.1) && out.1.configFile == st.configFile && out.1.containers == st.containers
    ensures forall t :: Count(out.1.history, t) == Count(st.history, t) + (if out.0.Ok? && t == Funds then 1 else 0)
  {
    CountSnoc(st.history, Tx(sender, LinkTransfer(token, to, amount, data)));
    if to !in st.coordinators then (Err(Reverted("no coordinator at this address")), st)
    else match Encoding.DecodeUint64(data)
      case None => (Err(Reverted("InvalidCalldata")), st)
      case Some(id) =>
        if id !in st.coordinators[to].subs then (Err(Reverted("InvalidSubscription")), st)
        else
          var credited := Credit(st, to, id, amount);
          ValidFrame(credited, credited.(history := st.history + [Tx(sender, LinkTransfer(token, to, amount, data))]));
          (Ok(()), credited.(history := st.history + [Tx(sender, LinkTransfer(token, to, amount, data))]))
  }

  /** `coordinator.addConsumer(id, consumer)`: reverts for an unknown
      subscription; a consumer already present is not added twice. */
  function AddConsumerOn(st: State, sender: Account, coordinator: Address, id: nat, consumer: Address): (out: (Result<(), Error>, State))
    ensures out.0.Err? <==> SubscriptionOf(st, coordinator, id).Err?
    ensures out.0.Err? ==> out.1 == st
    ensures out.0.Ok? ==>
      && var c := st.coordinators[coordinator];
      && var s := c.subs[id];
      && out.1 == st.(coordinators := st.coordinators[coordinator := c.(subs := c.subs[id :=
           s.(consumers := if consumer in s.consumers then s.consumers else s.consumers + [consumer])])],
         history := st.history + [Tx(sender, ConsumerAddition(coordinator, id, consumer))])
    ensures Valid(st) ==> Valid(out.1)
    ensures Evolves(st, out.1) && out.1.configFile == st.configFile && out.1.containers == st.containers
    ensures forall t :: Count(out.1.history, t) == Count(st.history, t) + (if out.0.Ok? && t == AddsConsumer then 1 else 0)
  {
    CountSnoc(st.history, Tx(sender, ConsumerAddition(coordinator, id, consumer)));
    if SubscriptionOf(st, coordinator, id).Err? then (Err(Reverted("InvalidSubscription")), st)
    else
      var c := st.coordinators[coordinator];
      var s := c.subs[id];
      var consumers := if consumer in s.consumers then s.consumers else s.consumers + [consumer];
      var post := st.(coordinators := st.coordinators[coordinator := c.(subs := c.subs[id := s.(consumers := consumers)])],
                      history := st.history + [Tx(sender, ConsumerAddition(coordinator, id, consumer))]);
      ValidUpdate(st, post, coordinator, c.(subs := c.subs[id := s.(consumers := consumers)]));
      (Ok(()), post)
  }

  /** Rewrites brownie-config.yaml with `networks[network]["subscription_id"]`
      set to `id`; a network missing from the file is a KeyError. */
  function SaveSubscriptionIdOn(st: State, network: string, id: nat): (out: (Result<(), Error>, State))
    ensures out.0.Ok? <==> network in st.configFile
    ensures out.0.Err? ==> out.1 == st
    ensures out.0.Ok? ==> out.1 == st.(configFile := st.configFile[network := st.configFile[network].(subscriptionId := Some(id))])
    ensures Valid(st) ==> Valid(out.1)
  {
    if network !in st.configFile then (Err(KeyError(network)), st)
    else
      var post := st.(configFile := st.configFile[network := st.configFile[network].(subscriptionId := Some(id))]);
      ValidFrame(st, post);
      (Ok(()), post)
  }

  // ---------------------------------------------------------------------
  // The same, as the mutable object a script run works on

  class Session {
    const network: string
    const config: map<string, NetworkConfig>
    const walletKey: Option<string>
    const accounts: seq<Address>
    var configFile: map<string, NetworkConfig>
    var containers: map<ContractKind, seq<Address>>
    var nextAddress: nat
    var coordinators: map<Address, Coordinator>
    var history: seq<Tx>

    function View(): State
      reads this
    {
      State(network, config, walletKey, accounts, configFile, containers, nextAddress, coordinators, history)
    }

    constructor (st: State)
      ensures View() == st
    {
      network, config, walletKey, accounts := st.network, st.config, st.walletKey, st.accounts;
      configFile, containers, nextAddress := st.configFile, st.containers, st.nextAddress;
      coordinators, history := st.coordinators, st.history;
    }

    method Deploy(sender: Account, kind: ContractKind, args: seq<nat>) returns (address: Address)
      modifies this
      ensures (address, View()) == DeployOn(old(View()), sender, kind, args)
    {
      address := nextAddress;
      var mocks := if kind in containers then containers[kind] else [];
      containers := containers[kind := mocks + [address]];
      nextAddress := nextAddress + 1;
      if kind == VrfCoordinator {
        coordinators := coordinators[address := Coordinator(0, map[])];
      }
      history := history + [Tx(sender, Deployment(kind, args))];
    }

    /** A view call: changes nothing. */
    method GetSubscription(coordinator: Address, id: nat) returns (r: Result<Subscription, Error>)
      ensures r == SubscriptionOf(View(), coordinator, id)
    {
      if coordinator in coordinators && id in coordinators[coordinator].subs {
        r := Ok(coordinators[coordinator].subs[id]);
      } else {
        r := Err(Reverted("InvalidSubscription"));
      }
    }

    method CreateSubscription(sender: Account, coordinator: Address) returns (r: Result<seq<Event>, Error>)
      modifies this
      ensures (r, View()) == CreateSubscriptionOn(old(View()), sender, coordinator)
    {
      if coordinator !in coordinators {
        return Err(Reverted("no coordinator at this address"));
      }
      var c := coordinators[coordinator];
      if c.lastSubId + 1 >= MaxSubId {
        return Err(Reverted("subscription ID overflow"));
      }
      var id := c.lastSubId + 1;
      coordinators := coordinators[coordinator := Coordinator(id, c.subs[id := Subscription(0, [])])];
      history := history + [Tx(sender, SubscriptionCreation(coordinator))];
      r := Ok([SubscriptionCreated(id, sender)]);
    }

    method FundSubscription(sender: Account, coordinator: Address, id: nat, amount: nat) returns (r: Result<(), Error>)
      modifies this
      ensures (r, View()) == FundSubscriptionOn(old(View()), sender, coordinator, id, amount)
    {
      if coordinator !in coordinators || id !in coordinators[coordinator].subs {
        return Err(Reverted("InvalidSubscription"));
      }
      var c := coordinators[coordinator];
      var s := c.subs[id];
      coordinators := coordinators[coordinator := c.(subs := c.subs[id := s.(balance := s.balance + amount)])];
      history := history + [Tx(sender, SubscriptionFunding(coordinator, id, amount))];
      r := Ok(());
    }

    method TransferAndCall(sender: Account, token: Address, to: Address, amount: nat, data: seq<Encoding.uint8>) returns (r: Result<(), Error>)
      modifies this
      ensures (r, View()) == TransferAndCallOn(old(View()), sender, token, to, amount, data)
    {
      if to !in coordinators {
        return Err(Reverted("no coordinator at this address"));
      }
      var decoded := Encoding.DecodeUint64(data);
      if decoded.None? {
        return Err(Reverted("InvalidCalldata"));
      }
      var id := decoded.value;
      if id !in coordinators[to].subs {
        return Err(Reverted("InvalidSubscription"));
      }
      var c := coordinators[to];
      var s := c.subs[id];
      coordinators := coordinators[to := c.(subs := c.subs[id := s.(balance := s.balance + amount)])];
      history := history + [Tx(sender, LinkTransfer(token, to, amount, data))];
      r := Ok(());
    }

    method AddConsumer(sender: Account, coordinator: Address, id: nat, consumer: Address) returns (r: Result<(), Error>)
      modifies this
      ensures (r, View()) == AddConsumerOn(old(View()), sender, coordinator, id, consumer)
    {
      if coordinator !in coordinators || id !in coordinators[coordinator].subs {
        return Err(Reverted("InvalidSubscription"));
      }
      var c := coordinators[coordinator];
      var s := c.subs[id];
      var consumers := s.consumers;
      if consumer !in consumers {
        consumers := consumers + [consumer];
      }
      coordinators := coordinators[coordinator := c.(subs := c.subs[id := s.(consumers := consumers)])];
      history := history + [Tx(sender, ConsumerAddition(coordinator, id, consumer))];
      r := Ok(());
    }

    method SaveSubscriptionId(net: string, id: nat) returns (r: Result<(), Error>)
      modifies this
      ensures (r, View()) == SaveSubscriptionIdOn(old(View()), net, id)
    {
      if net !in configFile {
        return Err(KeyError(net));
      }
      configFile := configFile[net := configFile[net].(subscriptionId := Some(id))];
      r := Ok(());
    }
  }
}
