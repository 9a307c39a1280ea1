/** scripts/vrf_subscription.py: the VRF subscription lifecycle. A run
    reuses the subscription ID stored for the active network or creates a new
    one (writing it back to brownie-config.yaml off local chains), funds the
    subscription when its balance is not above the configured `fund_amount`,
    and registers a consumer contract unless it is already registered. */
module VrfSubscription {
  import opened Wrappers
  import opened Brownie
  import opened Utils
  import Encoding

  /** LINK has 18 decimals: `link_amount` is scaled by 10^18. */
  const LinkPrecision: nat := 1_000_000_000_000_000_000

  /** `config["networks"].get(network, {}).get("subscription_id")`. */
  function StoredSubscriptionId(st: State): (r: Option<nat>)
    ensures r.Some? <==> st.network in st.config && st.config[st.network].subscriptionId.Some?
    ensures r.Some? ==> r == st.config[st.network].subscriptionId
  {
    if st.network in st.config then st.config[st.network].subscriptionId else None
  }

  /** The coordinator the scripts talk to, when it resolves without a
      deployment. */
  function CoordinatorOf(st: State): Option<Address>
  {
    ResolvedAddress(st, "vrf_coordinator")
  }

  /** The subscription `id` of the coordinator `st` resolves to. */
  function SubscriptionAt(st: State, id: nat): Result<Subscription, Error>
  {
    match CoordinatorOf(st)
    case None => Err(KeyError("vrf_coordinator"))
    case Some(c) => SubscriptionOf(st, c, id)
  }

  // ---------------------------------------------------------------------
  // get_subscription, lines 25-48: resolving the ID

  /** The part of `get_subscription` before the funding check: the stored ID
      is reused unless there is none or `is_create_new` is set; otherwise a
      new subscription is created, its ID read from the first event, and
      written to the configuration file off local chains. */
  function ResolveSubscriptionStep(st: State, isCreateNew: bool): (out: (Result<nat, Error>, State))
    ensures Valid(st) ==> Valid(out.1)
    ensures Evolves(st, out.1)
    ensures forall t :: t != Deploys && t != Creates ==> Count(out.1.history, t) == Count(st.history, t)
    ensures Count(out.1.history, Creates) <= Count(st.history, Creates) + 1
    ensures out.0.Ok? && (StoredSubscriptionId(st).None? || isCreateNew) ==>
      Count(out.1.history, Creates) == Count(st.history, Creates) + 1
    ensures StoredSubscriptionId(st).Some? && !isCreateNew ==>
      Count(out.1.history, Creates) == Count(st.history, Creates) &&
      out.1.configFile == st.configFile &&
      (out.0.Ok? ==> out.0.value == StoredSubscriptionId(st).value)
    ensures IsLocal(st.network) ==> out.1.configFile == st.configFile
    ensures out.0.Ok? ==> CoordinatorOf(out.1).Some?
  {
    match GetAccount(st, None, None)
    case Err(e) => (Err(e), st)
    case Ok(account) =>
      var (coordinator, st1) := GetContractStep(st, "vrf_coordinator");
      if coordinator.Err? then (Err(coordinator.error), st1)
      else
        var stored := StoredSubscriptionId(st1);
        if stored.Some? && !isCreateNew then (Ok(stored.value), st1)
        else
          var (created, st2) := CreateAndStoreStep(st1, account, coordinator.value.address);
          EvolvesTransitive(st, st1, st2);
          SameContracts(st1, st2, "vrf_coordinator");
          (created, st2)
  }

  /** The creating branch of `get_subscription`: `createSubscription`, the
      ID taken from the first event, and written to the configuration file
      unless the network is in `LocalBlockchainEnv`. The new subscription is
      the coordinator's latest, fresh, and starts with no balance and no
      consumers. */
  function CreateAndStoreStep(st: State, account: Account, coordinator: Address): (out: (Result<nat, Error>, State))
    ensures Valid(st) ==> Valid(out.1)
    ensures Evolves(st, out.1) && out.1.containers == st.containers
    ensures forall t :: t != Creates ==> Count(out.1.history, t) == Count(st.history, t)
    ensures Count(out.1.history, Creates) <= Count(st.history, Creates) + 1
    ensures out.0.Ok? ==>
      && Count(out.1.history, Creates) == Count(st.history, Creates) + 1
      && coordinator in st.coordinators && coordinator in out.1.coordinators
      && out.0.value == out.1.coordinators[coordinator].lastSubId
      && out.0.value == st.coordinators[coordinator].lastSubId + 1
      && out.0.value < MaxSubId
      && SubscriptionOf(out.1, coordinator, out.0.value) == Ok(Subscription(0, []))
      && (ValidCoordinator(st.coordinators[coordinator]) ==> SubscriptionOf(st, coordinator, out.0.value).Err?)
    ensures IsLocal(st.network) ==> out.1.configFile == st.configFile
    ensures !IsLocal(st.network) && out.0.Ok? ==>
      && st.network in st.configFile
      && out.1.configFile == st.configFile[st.network := st.configFile[st.network].(subscriptionId := Some(out.0.value))]
  {
    var (events, st2) := CreateSubscriptionOn(st, account, coordinator);
    if events.Err? then (Err(events.error), st2)
    else if |events.value| == 0 then (Err(IndexError(0)), st2)
    else
      var id := events.value[0].subId;
      if IsLocal(st2.network) then (Ok(id), st2)
      else
        var (saved, st3) := SaveSubscriptionIdOn(st2, st2.network, id);
        EvolvesTransitive(st, st2, st3);
        if saved.Err? then (Err(saved.error), st3) else (Ok(id), st3)
  }

  // ---------------------------------------------------------------------
  // is_subscription_funded

  /** `is_subscription_funded(id)`: the balance is strictly above the
      network's `fund_amount` (0 when unset); a network without a
      configuration entry is a KeyError. */
  function IsSubscriptionFundedStep(st: State, id: nat): (out: (Result<bool, Error>, State))
    ensures out.0.Ok? ==>
      && st.network in st.config
      && SubscriptionAt(out.1, id).Ok?
      && out.0.value == (SubscriptionAt(out.1, id).value.balance > st.config[st.network].fundAmount.GetOr(0))
    ensures CoordinatorOf(st).Some? ==> out.1 == st
    ensures Valid(st) ==> Valid(out.1)
    ensures Evolves(st, out.1) && out.1.configFile == st.configFile
    ensures forall t :: t != Deploys ==> Count(out.1.history, t) == Count(st.history, t)
  {
    var (coordinator, st1) := GetContractStep(st, "vrf_coordinator");
    if coordinator.Err? then (Err(coordinator.error), st1)
    else match SubscriptionOf(st1, coordinator.value.address, id)
      case Err(e) => (Err(e), st1)
      case Ok(sub) =>
        if st1.network !in st1.config then (Err(KeyError(st1.network)), st1)
        else (Ok(sub.balance > st1.config[st1.network].fundAmount.GetOr(0)), st1)
  }

  // ---------------------------------------------------------------------
  // fund_subscription

  /** The amount `fund_subscription` sends: `link_amount` scaled to 18
      decimals, or the network's `fund_amount` when `link_amount` is None
      (a KeyError when that entry is missing). */
  function FundAmount(st: State, linkAmount: Option<nat>): (r: Result<nat, Error>)
    ensures linkAmount.Some? ==> r == Ok(linkAmount.value * LinkPrecision)
    ensures linkAmount.None? ==>
      (r.Ok? <==> st.network in st.config && st.config[st.network].fundAmount.Some?) &&
      (r.Ok? ==> r.value == st.config[st.network].fundAmount.value)
  {
    match linkAmount
    case Some(amount) => Ok(amount * LinkPrecision)
    case None =>
      if st.network !in st.config then Err(KeyError(st.network))
      else match st.config[st.network].fundAmount
        case None => Err(KeyError("fund_amount"))
        case Some(amount) => Ok(amount)
  }

  /** Funding off local chains: LINK is sent to the coordinator with
      `transferAndCall`, the subscription ID encoded as the call data. */
  function TransferToCoordinatorStep(st: State, account: Account, coordinator: Address, id: nat, amount: nat): (out: (Result<(), Error>, State))
    requires !IsLocal(st.network)
    ensures out.0.Err? ==> out.1 == st
    ensures Valid(st) ==> Valid(out.1)
    ensures Evolves(st, out.1) && out.1.configFile == st.configFile
    ensures forall t :: t != Funds ==> Count(out.1.history, t) == Count(st.history, t)
    ensures Count(out.1.history, Funds) == Count(st.history, Funds) + (if out.0.Ok? then 1 else 0)
  {
    var (token, st1) := GetContractStep(st, "link_token");
    if token.Err? then (Err(token.error), st1)
    else match Encoding.ToBytes32(id)
      case None => (Err(OverflowError), st1)
      case Some(data) => TransferAndCallOn(st1, account, token.value.address, coordinator, amount, data)
  }

  /** `fund_subscription(id, link_amount)`: on a local chain the mock's
      `fundSubscription`, elsewhere a LINK `transferAndCall`. (The balance
      read back afterwards is only displayed, and the read cannot fail once
      the funding went through.) */
  function FundSubscriptionStep(st: State, id: nat, linkAmount: Option<nat>): (out: (Result<(), Error>, State))
    ensures FundAmount(st, linkAmount).Err? ==> out.1 == st && out.0.Err?
    ensures Valid(st) ==> Valid(out.1)
    ensures Evolves(st, out.1) && out.1.configFile == st.configFile
    ensures forall t :: t != Deploys && t != Funds ==> Count(out.1.history, t) == Count(st.history, t)
    ensures Count(out.1.history, Funds) <= Count(st.history, Funds) + 1
    ensures out.0.Ok? ==> Count(out.1.history, Funds) == Count(st.history, Funds) + 1
  {
    match GetAccount(st, None, None)
    case Err(e) => (Err(e), st)
    case Ok(account) =>
      match FundAmount(st, linkAmount)
      case Err(e) => (Err(e), st)
      case Ok(amount) =>
        var (coordinator, st1) := GetContractStep(st, "vrf_coordinator");
        if coordinator.Err? then (Err(coordinator.error), st1)
        else
          var (funded, st2) :=
            if IsLocal(st1.network) then FundSubscriptionOn(st1, account, coordinator.value.address, id, amount)
            else TransferToCoordinatorStep(st1, account, coordinator.value.address, id, amount);
          if funded.Err? then (Err(funded.error), st2) else (Ok(()), st2)
  }

  // ---------------------------------------------------------------------
  // get_subscription

  /** `get_subscription(is_create_new)`: resolve the ID, then fund the
      subscription once if it is not funded; the result is the resolved ID. */
  function GetSubscriptionStep(st: State, isCreateNew: bool): (out: (Result<nat, Error>, State))
    ensures Valid(st) ==> Valid(out.1)
    ensures Evolves(st, out.1)
    ensures out.0.Ok? ==> ResolveSubscriptionStep(st, isCreateNew).0 == out.0
  {
    var (resolved, st1) := ResolveSubscriptionStep(st, isCreateNew);
    if resolved.Err? then (resolved, st1)
    else TopUpStep(st1, resolved.value)
  }

  /** The end of `get_subscription`: the subscription is funded once when
      `is_subscription_funded` says it is not, and the ID is returned. Only
      funding (and a lazy mock deployment) is sent; the file is untouched. */
  function TopUpStep(st: State, id: nat): (out: (Result<nat, Error>, State))
    ensures Valid(st) ==> Valid(out.1)
    ensures Evolves(st, out.1) && out.1.configFile == st.configFile
    ensures forall t :: t != Deploys && t != Funds ==> Count(out.1.history, t) == Count(st.history, t)
    ensures Count(out.1.history, Funds) <= Count(st.history, Funds) + 1
    ensures out.0.Ok? ==> out.0.value == id
    ensures out.0.Ok? ==>
      (Count(out.1.history, Funds) == Count(st.history, Funds) + 1 <==> IsSubscriptionFundedStep(st, id).0 == Ok(false))
  {
    var (funded, st1) := IsSubscriptionFundedStep(st, id);
    if funded.Err? then (Err(funded.error), st1)
    else if funded.value then (Ok(id), st1)
    else
      var (topUp, st2) := FundSubscriptionStep(st1, id, None);
      EvolvesTransitive(st, st1, st2);
      if topUp.Err? then (Err(topUp.error), st2) else (Ok(id), st2)
  }

  // ---------------------------------------------------------------------
  // register_consumer

  /** `subscription_id`, or `config["networks"][network]["subscription_id"]`
      when it is None. */
  function ConsumerSubscriptionId(st: State, subId: Option<nat>): (r: Result<nat, Error>)
    ensures subId.Some? ==> r == Ok(subId.value)
    ensures subId.None? ==> (r.Ok? <==> StoredSubscriptionId(st).Some?) && (r.Ok? ==> Some(r.value) == StoredSubscriptionId(st))
  {
    match subId
    case Some(id) => Ok(id)
    case None =>
      if st.network !in st.config then Err(KeyError(st.network))
      else match st.config[st.network].subscriptionId
        case None => Err(KeyError("subscription_id"))
        case Some(id) => Ok(id)
  }

  /** `register_consumer(contract_address, subscription_id)`: an unknown
      subscription is an error that propagates; a consumer already present
      costs no transaction; otherwise one `addConsumer` is sent. */
  function RegisterConsumerStep(st: State, consumer: Address, subId: Option<nat>): (out: (Result<(), Error>, State))
    ensures Valid(st) ==> Valid(out.1)
    ensures Evolves(st, out.1) && out.1.configFile == st.configFile
    ensures forall t :: t != Deploys && t != AddsConsumer ==> Count(out.1.history, t) == Count(st.history, t)
    ensures Count(out.1.history, AddsConsumer) <= Count(st.history, AddsConsumer) + 1
  {
    match GetAccount(st, None, None)
    case Err(e) => (Err(e), st)
    case Ok(account) =>
      var (coordinator, st1) := GetContractStep(st, "vrf_coordinator");
      if coordinator.Err? then (Err(coordinator.error), st1)
      else match ConsumerSubscriptionId(st1, subId)
        case Err(e) => (Err(e), st1)
        case Ok(id) =>
          match SubscriptionOf(st1, coordinator.value.address, id)
          case Err(e) => (Err(e), st1)
          case Ok(sub) =>
            if consumer in sub.consumers then (Ok(()), st1)
            else
              var (r, st2) := AddConsumerOn(st1, account, coordinator.value.address, id, consumer);
              EvolvesTransitive(st, st1, st2);
              (r, st2)
  }

  // ---------------------------------------------------------------------
  // Properties of get_subscription

  /** Contract resolution looks only at the network, the configuration and
      the deployed mocks. */
  lemma SameContracts(a: State, b: State, name: string)
    requires a.network == b.network && a.config == b.config && a.containers == b.containers
    ensures ResolvedAddress(a, name) == ResolvedAddress(b, name)
  {
  }

  /** A stored ID is reused when `is_create_new` is false: no subscription
      is created, the file on disk is untouched, and the stored ID is the
      result. */
  lemma StoredIdIsReused(st: State)
    requires StoredSubscriptionId(st).Some?
    ensures var (r, post) := GetSubscriptionStep(st, false);
      && Count(post.history, Creates) == Count(st.history, Creates)
      && post.configFile == st.configFile
      && (r.Ok? ==> r.value == StoredSubscriptionId(st).value)
  {
  }

  /** Resolving without a stored ID (or with `is_create_new`) creates one
      subscription on the coordinator the run resolves to: the ID is the
      coordinator's new last ID, and the subscription starts empty. */
  lemma ResolvedNewSubscription(st: State, isCreateNew: bool)
    requires StoredSubscriptionId(st).None? || isCreateNew
    ensures var (r, mid) := ResolveSubscriptionStep(st, isCreateNew);
      r.Ok? ==>
        && CoordinatorOf(mid).Some?
        && var c := CoordinatorOf(mid).value;
        && c in mid.coordinators
        && r.value == mid.coordinators[c].lastSubId
        && r.value < MaxSubId
        && SubscriptionAt(mid, r.value) == Ok(Subscription(0, []))
  {
    match GetAccount(st, None, None)
    case Err(_) =>
    case Ok(account) =>
      var (coordinator, st1) := GetContractStep(st, "vrf_coordinator");
      if coordinator.Ok? {
        var (r, mid) := CreateAndStoreStep(st1, account, coordinator.value.address);
        SameContracts(st1, mid, "vrf_coordinator");
      }
  }

  /** Without a stored ID (or with `is_create_new`) at most one
      subscription is created, and exactly one once the ID is resolved: the
      creation stays even when the funding that follows fails. */
  lemma NewSubscriptionIsCreatedOnce(st: State, isCreateNew: bool)
    requires StoredSubscriptionId(st).None? || isCreateNew
    ensures var (r, post) := GetSubscriptionStep(st, isCreateNew);
      var resolved := ResolveSubscriptionStep(st, isCreateNew).0;
      && Count(post.history, Creates) <= Count(st.history, Creates) + 1
      && (r.Ok? ==> resolved.Ok?)
      && (resolved.Ok? ==> Count(post.history, Creates) == Count(st.history, Creates) + 1)
  {
  }

  /** The configuration file changes only when a subscription is created on
      a network outside `LocalBlockchainEnv`, and then only in that network's
      `subscription_id`, which becomes the created ID. The write stays even
      when the funding that follows fails. */
  lemma ConfigFileWrittenOnlyOffLocal(st: State, isCreateNew: bool)
    ensures var (r, post) := GetSubscriptionStep(st, isCreateNew);
      var resolved := ResolveSubscriptionStep(st, isCreateNew).0;
      && (IsLocal(st.network) ==> post.configFile == st.configFile)
      && (StoredSubscriptionId(st).Some? && !isCreateNew ==> post.configFile == st.configFile)
      && (r.Ok? ==> resolved == r)
      && (!IsLocal(st.network) && (StoredSubscriptionId(st).None? || isCreateNew) && resolved.Ok? ==>
            && st.network in st.configFile
            && post.configFile == st.configFile[st.network := st.configFile[st.network].(subscriptionId := Some(resolved.value))])
  {
  }

  /** `get_subscription` funds at most once, exactly when
      `is_subscription_funded` reports the resolved subscription as not
      funded, and returns the ID resolved before funding. */
  lemma FundedOnlyWhenNotFunded(st: State, isCreateNew: bool)
    ensures var (resolved, mid) := ResolveSubscriptionStep(st, isCreateNew);
      var (r, post) := GetSubscriptionStep(st, isCreateNew);
      && Count(post.history, Funds) <= Count(st.history, Funds) + 1
      && (r.Ok? ==> resolved.Ok? && r.value == resolved.value)
      && (r.Ok? ==>
            ((Count(post.history, Funds) == Count(st.history, Funds) + 1) <==>
             (IsSubscriptionFundedStep(mid, resolved.value).0 == Ok(false))))
  {
  }

  // ---------------------------------------------------------------------
  // Properties of is_subscription_funded and fund_subscription

  /** Once the coordinator resolves and knows the subscription,
      `is_subscription_funded` sends nothing and answers whether the balance
      is strictly above `fund_amount` (0 when unset); a network without a
      configuration entry is a KeyError. */
  lemma FundedIsStrictlyAboveMinimum(st: State, id: nat)
    requires SubscriptionAt(st, id).Ok?
    ensures var (r, post) := IsSubscriptionFundedStep(st, id);
      && post == st
      && (r.Ok? <==> st.network in st.config)
      && (r.Ok? ==> r.value == (SubscriptionAt(st, id).value.balance > st.config[st.network].fundAmount.GetOr(0)))
  {
  }

  /** `is_subscription_funded` changes at most what `get_contract` does: on
      a local chain without a coordinator mock it deploys one (with no
      subscriptions); every existing coordinator, the file on disk and the
      earlier mocks stay as they were, and no transaction but a deployment
      is sent. */
  lemma IsSubscriptionFundedOnlyDeploys(st: State, id: nat)
    requires Valid(st)
    ensures var post := IsSubscriptionFundedStep(st, id).1;
      && MocksAdded(st, post)
      && forall t :: t != Deploys ==> Count(post.history, t) == Count(st.history, t)
  {
    var (coordinator, st1) := GetContractStep(st, "vrf_coordinator");
    assert IsSubscriptionFundedStep(st, id).1 == st1;
  }

  /** A subscription with no balance counts as funded only when
      `fund_amount` is unset, and one holding exactly `fund_amount` is not
      funded. */
  lemma ExactlyFundAmountIsNotFunded(st: State, id: nat)
    requires SubscriptionAt(st, id).Ok? && st.network in st.config
    requires SubscriptionAt(st, id).value.balance == st.config[st.network].fundAmount.GetOr(0)
    ensures IsSubscriptionFundedStep(st, id) == (Ok(false), st)
  {
  }

  /** `fund_subscription` credits the whole amount to the subscription and
      nothing else: on a local chain through the mock coordinator's
      `fundSubscription`, elsewhere through one LINK `transferAndCall` whose
      data decodes back to the subscription ID. */
  lemma {:induction false} FundingCreditsAmount(st: State, id: nat, linkAmount: Option<nat>)
    requires Valid(st) && SubscriptionAt(st, id).Ok?
    ensures FundSubscriptionStep(st, id, linkAmount).0.Ok? <==>
      && GetAccount(st, None, None).Ok?
      && FundAmount(st, linkAmount).Ok?
      && (!IsLocal(st.network) ==> ResolvedAddress(st, "link_token").Some?)
    ensures var (r, post) := FundSubscriptionStep(st, id, linkAmount);
      r.Ok? ==>
        var c := CoordinatorOf(st).value;
        var amount := FundAmount(st, linkAmount).value;
        var sender := GetAccount(st, None, None).value;
        && CoordinatorOf(post) == Some(c)
        && SubscriptionAt(post, id).Ok?
        && SubscriptionAt(post, id).value.balance == SubscriptionAt(st, id).value.balance + amount
        && SubscriptionAt(post, id).value.consumers == SubscriptionAt(st, id).value.consumers
        && post.history == st.history + [Tx(sender,
             if IsLocal(st.network) then SubscriptionFunding(c, id, amount)
             else LinkTransfer(ResolvedAddress(st, "link_token").value, c, amount, Encoding.ToBytes32(id).value))]
  {
    // The case split is not needed for soundness, but it keeps the solver's
    // work to about a third of what the unaided proof takes.
    if GetAccount(st, None, None).Err? || FundAmount(st, linkAmount).Err? {
      return;
    }
    var c := CoordinatorOf(st).value;
    var amount := FundAmount(st, linkAmount).value;
    var sender := GetAccount(st, None, None).value;
    if IsLocal(st.network) {
      var (_, st2) := FundSubscriptionOn(st, sender, c, id, amount);
      SameContracts(st, st2, "vrf_coordinator");
    } else if ResolvedAddress(st, "link_token").Some? {
      var link := ResolvedAddress(st, "link_token").value;
      Encoding.SubscriptionIdRoundTrip(id);
      var (_, st2) := TransferAndCallOn(st, sender, link, c, amount, Encoding.ToBytes32(id).value);
      SameContracts(st, st2, "vrf_coordinator");
    }
  }

  /** `fund_subscription` without `link_amount` on a network with no
      `fund_amount` raises a KeyError before sending anything. */
  lemma FundWithoutAmountFails(st: State, id: nat)
    requires GetAccount(st, None, None).Ok?
    requires st.network !in st.config || st.config[st.network].fundAmount.None?
    ensures FundSubscriptionStep(st, id, None) ==
      (Err(KeyError(if st.network !in st.config then st.network else "fund_amount")), st)
  {
  }

  // ---------------------------------------------------------------------
  // get_subscription as a whole

  /** A subscription that `get_subscription` creates holds exactly
      `fund_amount` LINK afterwards and has no consumers; with no
      `fund_amount` configured the call fails once the subscription exists. */
  lemma {:induction false} NewSubscriptionHoldsFundAmount(st: State, isCreateNew: bool)
    requires Valid(st)
    requires StoredSubscriptionId(st).None? || isCreateNew
    ensures var (r, post) := GetSubscriptionStep(st, isCreateNew);
      && (r.Ok? ==>
            && st.network in st.config && st.config[st.network].fundAmount.Some?
            && SubscriptionAt(post, r.value) == Ok(Subscription(st.config[st.network].fundAmount.value, [])))
      && (st.network in st.config && st.config[st.network].fundAmount.None? ==> r.Err?)
  {
    var (resolved, mid) := ResolveSubscriptionStep(st, isCreateNew);
    if resolved.Ok? {
      var id := resolved.value;
      ResolvedNewSubscription(st, isCreateNew);
      FundedIsStrictlyAboveMinimum(mid, id);
      if mid.network in mid.config {
        assert IsSubscriptionFundedStep(mid, id) == (Ok(false), mid);
        FundingCreditsAmount(mid, id, None);
      }
    }
  }

  /** Within one run the new ID is written only to the file, not to the
      configuration the run loaded: a second `get_subscription` in the same
      run sees no ID and creates another, distinct subscription. */
  lemma {:induction false} SameRunCreatesAgain(st: State)
    requires Valid(st) && StoredSubscriptionId(st).None?
    ensures var (r1, mid) := GetSubscriptionStep(st, false);
      var (r2, post) := GetSubscriptionStep(mid, false);
      && StoredSubscriptionId(mid).None?
      && (r1.Ok? && r2.Ok? ==>
            && Count(post.history, Creates) == Count(st.history, Creates) + 2
            && r1.value != r2.value)
  {
    var (r1, mid) := GetSubscriptionStep(st, false);
    var (r2, post) := GetSubscriptionStep(mid, false);
    NewSubscriptionIsCreatedOnce(st, false);
    NewSubscriptionIsCreatedOnce(mid, false);
    if r1.Ok? && r2.Ok? {
      NewSubscriptionHoldsFundAmount(st, false);
      var c := CoordinatorOf(mid).value;
      assert r1.value in mid.coordinators[c].subs;
      assert ValidCoordinator(mid.coordinators[c]);
      var account := GetAccount(mid, None, None).value;
      assert GetContractStep(mid, "vrf_coordinator") == (Ok(Contract(VrfCoordinator, c)), mid);
      var (created, mid2) := CreateAndStoreStep(mid, account, c);
      assert ResolveSubscriptionStep(mid, false) == (created, mid2);
      assert created.Ok? && created.value == r2.value;
    }
  }

  /** Across runs on a network outside `LocalBlockchainEnv` (the next run
      loads the file the previous one wrote) the ID is reused and nothing is
      created; because funding stops at exactly `fund_amount` and the check
      is strict, the next run funds the subscription once more. */
  lemma {:induction false} NextRunReusesIdAndFundsAgain(st: State)
    requires Valid(st) && !IsLocal(st.network) && st.config == st.configFile
    requires StoredSubscriptionId(st).None?
    ensures var (r1, mid) := GetSubscriptionStep(st, false);
      var next := NextRun(mid);
      var (r2, post) := GetSubscriptionStep(next, false);
      r1.Ok? ==>
        && StoredSubscriptionId(next) == Some(r1.value)
        && Count(post.history, Creates) == Count(next.history, Creates)
        && (r2.Ok? ==> r2.value == r1.value && Count(post.history, Funds) == Count(next.history, Funds) + 1)
  {
    var (r1, mid) := GetSubscriptionStep(st, false);
    var next := NextRun(mid);
    if r1.Ok? {
      var id := r1.value;
      ConfigFileWrittenOnlyOffLocal(st, false);
      NewSubscriptionHoldsFundAmount(st, false);
      assert next.config == st.config[st.network := st.config[st.network].(subscriptionId := Some(id))];
      assert StoredSubscriptionId(next) == Some(id);
      StoredIdIsReused(next);
      FundedOnlyWhenNotFunded(next, false);
      assert CoordinatorOf(next) == CoordinatorOf(mid);
      assert ResolveSubscriptionStep(next, false).1 == next;
      ExactlyFundAmountIsNotFunded(next, id);
    }
  }

  // ---------------------------------------------------------------------
  // Properties of register_consumer

  /** With the coordinator resolved, `register_consumer` succeeds exactly
      when an account resolves, the subscription ID is known (given or
      configured) and the coordinator has that subscription. On success the
      consumer is registered and the balance is untouched; nothing is sent
      when it was registered already, one `addConsumer` otherwise. */
  lemma RegisterConsumerAdds(st: State, consumer: Address, subId: Option<nat>)
    requires CoordinatorOf(st).Some?
    ensures var (r, post) := RegisterConsumerStep(st, consumer, subId);
      var id := ConsumerSubscriptionId(st, subId);
      && (r.Ok? <==> GetAccount(st, None, None).Ok? && id.Ok? && SubscriptionAt(st, id.value).Ok?)
      && (r.Err? ==> post == st)
      && (r.Ok? ==>
            var before := SubscriptionAt(st, id.value).value;
            && SubscriptionAt(post, id.value).Ok?
            && SubscriptionAt(post, id.value).value.consumers ==
                 (if consumer in before.consumers then before.consumers else before.consumers + [consumer])
            && SubscriptionAt(post, id.value).value.balance == before.balance
            && (consumer in before.consumers ==> post == st)
            && (consumer !in before.consumers ==>
                  post.history == st.history + [Tx(GetAccount(st, None, None).value,
                                                   ConsumerAddition(CoordinatorOf(st).value, id.value, consumer))]))
  {
    var (r, post) := RegisterConsumerStep(st, consumer, subId);
    if r.Ok? {
      var c := CoordinatorOf(st).value;
      var id := ConsumerSubscriptionId(st, subId).value;
      assert GetContractStep(st, "vrf_coordinator") == (Ok(Contract(VrfCoordinator, c)), st);
      var before := SubscriptionOf(st, c, id).value;
      if consumer !in before.consumers {
        var account := GetAccount(st, None, None).value;
        assert (r, post) == AddConsumerOn(st, account, c, id, consumer);
        SameContracts(st, post, "vrf_coordinator");
      }
    }
  }

  /** On a local chain with no coordinator deployed yet, `register_consumer`
      deploys the mock coordinator, which has no subscriptions, so the call
      fails whatever ID it is given. */
  lemma RegisterOnFreshLocalChainFails(st: State, consumer: Address, subId: Option<nat>)
    requires IsLocal(st.network) && |Deployed(st, VrfCoordinator)| == 0
    ensures RegisterConsumerStep(st, consumer, subId).0.Err?
  {
    if GetAccount(st, None, None).Ok? {
      var account := GetAccount(st, None, None).value;
      var name := "vrf_coordinator";
      assert DeployIfSelected(st, account, Some(name), PriceFeed) == st;
      var (c, st1) := DeployOn(st, account, VrfCoordinator, MockArgs(VrfCoordinator));
      assert DeployIfSelected(st, account, Some(name), VrfCoordinator) == st1;
      assert DeployIfSelected(st1, account, Some(name), LinkToken) == st1;
      assert DeployMocksStep(st, Some(name)) == (Ok(()), st1);
      assert Deployed(st1, VrfCoordinator) == [c];
      assert GetContractStep(st, name) == (Ok(Contract(VrfCoordinator, c)), st1);
      assert st1.coordinators[c].subs == map[];
    }
  }

  /** Registering the same consumer twice sends one `addConsumer` at most:
      the second call succeeds and changes nothing. */
  lemma {:induction false} RegisterConsumerIdempotent(st: State, consumer: Address, subId: Option<nat>)
    requires CoordinatorOf(st).Some?
    ensures var (r, post) := RegisterConsumerStep(st, consumer, subId);
      r.Ok? ==> RegisterConsumerStep(post, consumer, subId) == (Ok(()), post)
  {
    var (r, post) := RegisterConsumerStep(st, consumer, subId);
    RegisterConsumerAdds(st, consumer, subId);
    if r.Ok? {
      var id := ConsumerSubscriptionId(st, subId).value;
      assert ConsumerSubscriptionId(post, subId) == Ok(id);
      RegisterConsumerAdds(post, consumer, subId);
    }
  }

  // ---------------------------------------------------------------------
  // The operations as a script run performs them

  method GetSubscription(b: Session, isCreateNew: bool) returns (r: Result<nat, Error>)
    modifies b
    ensures (r, b.View()) == GetSubscriptionStep(old(b.View()), isCreateNew)
  {
    var account :- GetAccount(b.View(), None, None);
    var coordinator :- GetContract(b, "vrf_coordinator");
    var id: nat;
    var stored := StoredSubscriptionId(b.View());
    if stored.None? || isCreateNew {
      var events :- b.CreateSubscription(account, coordinator.address);
      if |events| == 0 {
        return Err(IndexError(0));
      }
      id := events[0].subId;
      if !IsLocal(b.network) {
        var saved :- b.SaveSubscriptionId(b.network, id);
      }
    } else {
      id := stored.value;
    }
    var funded :- IsSubscriptionFunded(b, id);
    if !funded {
      var topUp :- FundSubscription(b, id, None);
    }
    r := Ok(id);
  }

  method IsSubscriptionFunded(b: Session, id: nat) returns (r: Result<bool, Error>)
    modifies b
    ensures (r, b.View()) == IsSubscriptionFundedStep(old(b.View()), id)
  {
    var coordinator :- GetContract(b, "vrf_coordinator");
    var sub :- b.GetSubscription(coordinator.address, id);
    if b.network !in b.config {
      return Err(KeyError(b.network));
    }
    var minimum := b.config[b.network].fundAmount.GetOr(0);
    r := Ok(sub.balance > minimum);
  }

  method FundSubscription(b: Session, id: nat, linkAmount: Option<nat>) returns (r: Result<(), Error>)
    modifies b
    ensures (r, b.View()) == FundSubscriptionStep(old(b.View()), id, linkAmount)
  {
    var account :- GetAccount(b.View(), None, None);
    var amount :- FundAmount(b.View(), linkAmount);
    var coordinator :- GetContract(b, "vrf_coordinator");
    if IsLocal(b.network) {
      var funded :- b.FundSubscription(account, coordinator.address, id, amount);
    } else {
      var token :- GetContract(b, "link_token");
      var data := Encoding.ToBytes32(id);
      if data.None? {
        return Err(OverflowError);
      }
      var funded :- b.TransferAndCall(account, token.address, coordinator.address, amount, data.value);
    }
    var balance := b.GetSubscription(coordinator.address, id);
    r := Ok(());
  }

  method RegisterConsumer(b: Session, consumer: Address, subId: Option<nat>) returns (r: Result<(), Error>)
    modifies b
    ensures (r, b.View()) == RegisterConsumerStep(old(b.View()), consumer, subId)
  {
    var account :- GetAccount(b.View(), None, None);
    var coordinator :- GetContract(b, "vrf_coordinator");
    var id :- ConsumerSubscriptionId(b.View(), subId);
    var sub :- b.GetSubscription(coordinator.address, id);
    if consumer !in sub.consumers {
      r := b.AddConsumer(account, coordinator.address, id, consumer);
    } else {
      r := Ok(());
    }
  }
}
