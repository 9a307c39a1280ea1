# VRF subscription lifecycle, modelled in Dafny

This project models the Chainlink VRF subscription manager of a Brownie
lottery project (`scripts/vrf_subscription.py`) and the helpers it relies on
(`scripts/utils.py`). A script run does four things:

- It resolves a subscription ID. It reuses the ID stored for the active
  network, or creates a subscription on the VRF coordinator. Off local chains
  it writes a new ID back to `brownie-config.yaml`.
- It checks whether the subscription is funded above the configured
  `fund_amount`.
- It tops the subscription up with LINK when it is not funded.
- It registers a consumer contract unless that contract is already
  registered.

The helpers decide which account signs and which contract a name resolves
to. On a local chain that is a mock, deployed on demand. On any other
network it is the address in the configuration.

The model is organised in these modules:

- `Wrappers`: `Option` and `Result`. An exception of the source is an `Err`.
- `Encoding`: the 32-byte big-endian word that `convert.to_bytes` produces
  for the subscription ID. The coordinator decodes that word back into a
  `uint64` ID.
- `Brownie`: the world a run sees, as one `State` value. It holds:
  - the active network;
  - the configuration loaded at start-up (`config`);
  - the configuration file on disk (`configFile`);
  - the signing accounts;
  - the mock containers;
  - the coordinators' subscriptions;
  - the transactions sent (`history`).

  It also defines each chain call as a function from state to result and new
  state. The class `Session` holds the same state as mutable fields, and its
  methods are proved to do what those functions say.
- `Utils`: `get_account` as the pure function `GetAccount`. The account
  list is fixed in the model, so the accounts that `accounts.add` and
  `accounts.load` append are not kept (see "## Left out"). `get_contract` and `deploy_mocks` are each a step function
  plus a module-level method that acts on a `Session` passed to it.
- `VrfSubscription`: `get_subscription`, `is_subscription_funded`,
  `fund_subscription` and `register_consumer`, in the same two forms, and
  the lemmas about them.

Each operation that changes state comes in two forms:

- a function `XStep(st, …)`, which returns the result and the new state;
- a module-level method with the same control flow as the script. It takes a
  `Session` object, changes only that object, and its postcondition ties it to
  `XStep`.

The chain calls themselves are methods of the class `Session` (`Deploy`,
`CreateSubscription`, …), each tied to its function (`DeployOn`,
`CreateSubscriptionOn`, …).

The properties are lemmas about the step functions. They are stated in terms
of:

- the subscription's balance and consumers;
- the configuration file;
- the number of transactions of each kind sent (`Count(history, tag)`).

Two consequences of the code are worth stating. Both are proved.

- **Same run vs next run.** `get_subscription` writes a new ID to the file
  on disk, not to the configuration the running process already loaded. In
  one run, a second `get_subscription(False)` therefore creates a second,
  different subscription (`SameRunCreatesAgain`). In the next run, which
  loads the file, the ID is reused (`NextRunReusesIdAndFundsAgain`). The
  reason is in the code: `config` is loaded once per process, and line 43
  writes a dictionary read from the file itself. So two
  `get_subscription(False)` calls return the same ID without a second
  creation only across runs.
- **Repeated top-ups.** The funding check is strict (`balance >
  fund_amount`). Funding adds exactly `fund_amount`. So a new subscription
  ends with balance equal to `fund_amount` (`NewSubscriptionHoldsFundAmount`,
  as the unit test expects), and the next run reports it as not funded and
  funds it again (`NextRunReusesIdAndFundsAgain`).

## Model

| member | source | states |
|---|---|---|
| Utils.MockOf | scripts/utils.py:29-33 | `CONTRACT_TO_MOCK`: exactly the three names map to a mock kind; the kind maps back to the name |
| Utils.PyIndex | scripts/utils.py:39 | Python list indexing: defined exactly for `-n <= i < n`; a negative index counts from the end |
| Utils.GetAccount | scripts/utils.py:36-49 | an index succeeds exactly for `-n <= index < n` and then returns `accounts[index]`, a negative index counting from the end as in Python; an `id` without an index loads that keystore account |
| Utils.IndexTakesPrecedence | scripts/utils.py:37-42 | with an index, the result depends only on the account list: not on the id, the network or the wallet key |
| Utils.DefaultAccount | scripts/utils.py:44-49 | with neither index nor id: `accounts[0]` on local and forked networks, the configured private key elsewhere, which fails when it is missing |
| Utils.DeployIfSelected | scripts/utils.py:91-99 | one `if` of `deploy_mocks`: a mock of the kind is deployed exactly when no name is given or the name is the kind's; only that kind's container grows; existing coordinators and their subscriptions are kept; one deployment transaction or none |
| Utils.DeployMocksStep | scripts/utils.py:81-99 | fails (deploying nothing) exactly when no account resolves; otherwise one mock of each selected kind is appended and earlier mocks are kept; existing coordinators keep their subscriptions and a new coordinator mock starts empty; only deployments are sent |
| Utils.DeployMocksAll | scripts/utils.py:91-99 | `deploy_mocks(None)` deploys one mock of each of the three kinds |
| Utils.DeployMocksByName | scripts/utils.py:91-99 | `deploy_mocks(name)` deploys one mock of the named kind and nothing else; an unknown name leaves the state unchanged |
| Utils.GetContractStep | scripts/utils.py:52-78 | an unknown name is a KeyError with no state change; a contract that already resolves is returned with no deployment; off local chains nothing changes; a returned contract is the one the name now resolves to; existing coordinators and earlier mocks are kept |
| Utils.GetContractDeploysLazily | scripts/utils.py:69-72 | on a local chain with no mock of the kind, exactly one is deployed, of that kind only, and it is returned |
| Utils.GetContractOffLocal | scripts/utils.py:73-77 | outside `LocalBlockchainEnv` (forks included) nothing is deployed; the contract is the configured address, and a missing entry is an error |
| Utils.DeployMocks | scripts/utils.py:81-99 | the method's effect on the session is `DeployMocksStep` |
| Utils.GetContract | scripts/utils.py:52-78 | the method's effect on the session is `GetContractStep` |
| Brownie.DeployOn | scripts/utils.py:93-99 | a deployment gets the next address, which in a valid state is no coordinator's and no container's; it is appended to its kind's container and the other kinds are unchanged; a coordinator mock is added with no subscriptions and every other coordinator is unchanged; one deployment transaction |
| Brownie.SubscriptionOf | scripts/vrf_subscription.py:67 | `getSubscription` succeeds exactly for a subscription the coordinator has, and returns it |
| Brownie.CreateSubscriptionOn | scripts/vrf_subscription.py:33-36 | `createSubscription` succeeds exactly when the address is a coordinator whose next ID fits 64 bits; it allocates the next 64-bit ID, which was unused, with zero balance and no consumers; it emits one event carrying the ID; one creation transaction |
| Brownie.FundSubscriptionOn | scripts/vrf_subscription.py:97-101 | the mock's `fundSubscription` fails exactly for an unknown subscription; otherwise it credits the amount to it |
| Brownie.TransferAndCallOn | scripts/vrf_subscription.py:103-110 | `transferAndCall` succeeds exactly when the recipient is a coordinator and the data decodes to one of its subscription IDs; it then credits the amount to that subscription; a failure changes nothing |
| Brownie.AddConsumerOn | scripts/vrf_subscription.py:154-157 | `addConsumer` fails exactly for an unknown subscription, changing nothing; otherwise the whole new state is given: the consumer is appended when absent, the balance, the other subscriptions and the other coordinators are unchanged, and one `addConsumer` transaction is recorded |
| Brownie.SaveSubscriptionIdOn | scripts/vrf_subscription.py:40-45 | writing the file changes only the network's `subscription_id`; a network missing from the file is a KeyError |
| Brownie.Session.constructor | scripts/vrf_subscription.py:25 | a session starts in the given state |
| Brownie.Session.Deploy | scripts/utils.py:93-99 | the method's effect is `DeployOn` |
| Brownie.Session.GetSubscription | scripts/vrf_subscription.py:67 | the view call's result is `SubscriptionOf` |
| Brownie.Session.CreateSubscription | scripts/vrf_subscription.py:33-36 | the method's effect is `CreateSubscriptionOn` |
| Brownie.Session.FundSubscription | scripts/vrf_subscription.py:98-101 | the method's effect is `FundSubscriptionOn` |
| Brownie.Session.TransferAndCall | scripts/vrf_subscription.py:104-110 | the method's effect is `TransferAndCallOn` |
| Brownie.Session.AddConsumer | scripts/vrf_subscription.py:154-157 | the method's effect is `AddConsumerOn` |
| Brownie.Session.SaveSubscriptionId | scripts/vrf_subscription.py:40-45 | the method's effect is `SaveSubscriptionIdOn` |
| Encoding.ToBytes32 | scripts/vrf_subscription.py:107 | `convert.to_bytes(id)` is defined exactly for IDs below 2^256; it gives 32 bytes whose big-endian value is the ID |
| Encoding.DecodeUint64 | scripts/vrf_subscription.py:107 | the coordinator accepts only a 32-byte word whose value fits 64 bits, and reads back that value |
| Encoding.SubscriptionIdRoundTrip | scripts/vrf_subscription.py:107 | every 64-bit subscription ID survives encoding and decoding unchanged |
| VrfSubscription.StoredSubscriptionId | scripts/vrf_subscription.py:30 | an ID is stored exactly when the network has a configuration entry carrying `subscription_id`; a network with no entry has none |
| VrfSubscription.ResolveSubscriptionStep | scripts/vrf_subscription.py:25-48 | with a stored ID and no `is_create_new`: no creation, file untouched, the stored ID is the result; otherwise at most one creation, exactly one on success; the file is never written on a local chain |
| VrfSubscription.CreateAndStoreStep | scripts/vrf_subscription.py:33-46 | the ID is the new subscription's: the coordinator's next and latest ID, unused before, empty; off local chains only `networks[network].subscription_id` of the file changes, to the ID |
| VrfSubscription.StoredIdIsReused | scripts/vrf_subscription.py:30-31 | `get_subscription(False)` with a stored ID creates nothing, leaves the file alone and returns the stored ID |
| VrfSubscription.ResolvedNewSubscription | scripts/vrf_subscription.py:31-36 | a created ID is the coordinator's latest, below 2^64, and names an empty subscription of the coordinator the run uses |
| VrfSubscription.NewSubscriptionIsCreatedOnce | scripts/vrf_subscription.py:31-54 | without a stored ID (or with `is_create_new`), at most one `createSubscription`; exactly one once the ID is resolved, so the creation stays even when the funding at lines 50-54 then fails |
| VrfSubscription.ConfigFileWrittenOnlyOffLocal | scripts/vrf_subscription.py:39-54 | the file is untouched on local chains and when the ID is reused; off local chains, once an ID is created and resolved, it replaces only that network's `subscription_id`, and the write stays even when the funding at lines 50-54 then fails; a successful result is that ID |
| VrfSubscription.TopUpStep | scripts/vrf_subscription.py:50-54 | at most one funding transaction; on success, one exactly when `is_subscription_funded` is false; a successful result is the given ID; the file is untouched |
| VrfSubscription.FundedOnlyWhenNotFunded | scripts/vrf_subscription.py:50-54 | at most one funding transaction, sent exactly when `is_subscription_funded` is false on the resolved ID; the result is the ID resolved before funding |
| VrfSubscription.IsSubscriptionFundedStep | scripts/vrf_subscription.py:57-71 | on success the answer is `balance > fund_amount` (0 when unset) for an existing subscription of the coordinator the run resolves to; when that coordinator already resolves, nothing changes; the file is untouched and no transaction other than a deployment is sent |
| VrfSubscription.IsSubscriptionFundedOnlyDeploys | scripts/vrf_subscription.py:66-71 | in every case, including a lazily deployed coordinator (scripts/utils.py:69-72), the only change is mocks added: existing coordinators keep their subscriptions, earlier mocks are kept, the file is untouched, and only deployments are sent |
| VrfSubscription.FundedIsStrictlyAboveMinimum | scripts/vrf_subscription.py:66-71 | with the subscription known, no state change, success exactly when the network has a configuration entry, and the answer is the strict comparison with the default 0 |
| VrfSubscription.ExactlyFundAmountIsNotFunded | scripts/vrf_subscription.py:70-71 | a balance exactly at `fund_amount` is reported as not funded |
| VrfSubscription.FundAmount | scripts/vrf_subscription.py:90-93 | `link_amount` times 10^18 when given; otherwise the network's `fund_amount`, and a KeyError when it is missing |
| VrfSubscription.TransferToCoordinatorStep | scripts/vrf_subscription.py:102-110 | off local chains exactly one LINK transfer on success and none on failure; the file is untouched |
| VrfSubscription.FundSubscriptionStep | scripts/vrf_subscription.py:74-117 | a missing amount fails with no state change; at most one funding transaction, exactly one on success |
| VrfSubscription.FundingCreditsAmount | scripts/vrf_subscription.py:88-112 | success exactly when an account, an amount and (off local chains) the LINK token resolve; then the balance grows by the amount, the consumers are unchanged, and the one transaction is `fundSubscription` locally and `transferAndCall(coordinator, amount, to_bytes(id))` elsewhere |
| VrfSubscription.FundWithoutAmountFails | scripts/vrf_subscription.py:90-91 | without `link_amount` and without `fund_amount`, a KeyError before anything is sent |
| VrfSubscription.GetSubscriptionStep | scripts/vrf_subscription.py:8-54 | a successful result is the ID the resolution step returned |
| VrfSubscription.NewSubscriptionHoldsFundAmount | tests/test_lottery_unit.py:138-148 | a subscription that `get_subscription` creates ends with balance exactly `fund_amount` and no consumers; without `fund_amount` the call fails |
| VrfSubscription.SameRunCreatesAgain | scripts/vrf_subscription.py:30-46 | in one run the loaded configuration never gains the ID, so a second call creates a second, distinct subscription |
| VrfSubscription.NextRunReusesIdAndFundsAgain | scripts/vrf_subscription.py:30-54 | the next run off local chains sees the saved ID, reuses it without creating, and funds it once more because its balance equals `fund_amount` |
| VrfSubscription.ConsumerSubscriptionId | scripts/vrf_subscription.py:134-135 | a given ID is used as is; otherwise the network's configured `subscription_id`, which fails when it is missing |
| VrfSubscription.RegisterConsumerStep | scripts/vrf_subscription.py:120-157 | at most one `addConsumer`; no other kind of transaction except a lazy mock deployment; the file is untouched |
| VrfSubscription.RegisterConsumerAdds | scripts/vrf_subscription.py:132-157 | success exactly when an account, an ID and the subscription exist; a failure changes nothing; on success the consumer list is the old list with the consumer appended when it was absent, the balance is unchanged, nothing is sent if it already was registered, and otherwise one `addConsumer` |
| VrfSubscription.RegisterOnFreshLocalChainFails | scripts/vrf_subscription.py:133-144 | on a local chain without a coordinator mock, the freshly deployed mock has no subscriptions, so registration fails |
| VrfSubscription.RegisterConsumerIdempotent | scripts/vrf_subscription.py:147-151 | after a successful registration the same call succeeds and changes nothing |
| VrfSubscription.GetSubscription | scripts/vrf_subscription.py:8-54 | the method's effect on the session is `GetSubscriptionStep` |
| VrfSubscription.IsSubscriptionFunded | scripts/vrf_subscription.py:57-71 | the method's effect on the session is `IsSubscriptionFundedStep` |
| VrfSubscription.FundSubscription | scripts/vrf_subscription.py:74-117 | the method's effect on the session is `FundSubscriptionStep` |
| VrfSubscription.RegisterConsumer | scripts/vrf_subscription.py:120-157 | the method's effect on the session is `RegisterConsumerStep` |

## Left out

- Printing, `tx.wait(1)` confirmations and the `time.sleep` in the tests have no effect on the modelled state.
- `link_amount` is a natural number of whole LINK. A float `link_amount` is not modelled, and neither is the rounding of `int(link_amount * 10**18)`.
- The balance read back at the end of `fund_subscription` (lines 112-117) is only displayed. It is not modelled as a result, and its read cannot fail after a successful funding.
- Reading and writing YAML is modelled as a map from network to entry. Formatting, comments and other keys of the file are not modelled.
- The file is written only for a network that already has an entry in it (a missing entry is a KeyError). A `subscription_id` that is missing from a network's entry and one set to `null` are both modelled as `subscriptionId == None`. Line 30 reads both as `None` through `.get`. At line 135 a missing key raises KeyError, and a `null` ID fails in `getSubscription` instead. The model reports both as that KeyError. In both cases nothing changes except the coordinator mock that `get_contract` may already have deployed.
- `accounts.load(id)` and `accounts.add(key)` give an account named by the id or key. Keystore decryption and key derivation are external.
- `Contract.from_abi` is modelled as binding a kind to an address. ABIs are not modelled.
- The VRF coordinator and the LINK token contracts are not part of this model. They are modelled by their observable behaviour:
  - IDs come from a counter that reverts past 64 bits;
  - `getSubscription` reverts for an unknown ID;
  - `onTokenTransfer` decodes one 32-byte word;
  - `addConsumer` does not duplicate a consumer.
- Coordinator checks not modelled: owner checks, the consumer limit and uint96 balance overflow.
- LINK token balances are not modelled. A transfer that the account cannot pay for is not an error in the model.
- Addresses are natural numbers. Brownie's case-insensitive comparison of address strings in `contract_address in sub_consumers` is not modelled.
- `main()` of `scripts/vrf_subscription.py`, `scripts/deploy_lottery.py` and the Lottery contract are outside this model.
- Utils.GetContractStep: lazy deployment is specified through `DeployMocksStep` and `GetContractDeploysLazily`. The step's own contract says only that the returned contract is the one the name resolves to afterwards.
- VrfSubscription.RegisterConsumerAdds: it assumes the coordinator already resolves. The lazily deployed case is covered separately by `RegisterOnFreshLocalChainFails`.
- Brownie.TransferAndCallOn: the coordinator's `onTokenTransfer` check that msg.sender is the LINK token is not modelled. The `token` argument is recorded in the transaction but not compared with anything.
- VrfSubscription.FundingCreditsAmount: because of the line above, "the LINK token resolves" means that some `link_token` address resolves. Any configured address is accepted.
- Utils.GetAccount: the account that `accounts.load(id)` (scripts/utils.py:42) or `accounts.add(key)` (scripts/utils.py:49) returns is not appended to `accounts`. The model keeps the account list fixed, so a later `get_account(index=-1)` does not return that account.
