/** scripts/utils.py: which networks are local, which account signs, and
    which contract object a contract name resolves to (a mock deployed on
    demand on a local chain, the configured address elsewhere). */
module Utils {
  import opened Wrappers
  import opened Brownie

  // Mock constructor arguments.
  const Decimals: nat := 8
  const StartingPrice: nat := 200000000000
  const BaseFee: nat := 100000000000000000
  const GasPriceLink: nat := 1000000000

  /** Chains on which contracts are mocked. */
  const LocalBlockchainEnv: seq<string> := ["development", "ganache-local"]

  /** Forked chains. */
  const ForkedLocalEnv: seq<string> := ["mainnet-fork"]

  predicate IsLocal(network: string)
  {
    network in LocalBlockchainEnv
  }

  predicate IsForked(network: string)
  {
    network in ForkedLocalEnv
  }

  /** The key of `CONTRACT_TO_MOCK` (and of a network's configured
      addresses) for a contract kind. */
  function MockName(kind: ContractKind): string
  {
    match kind
    case PriceFeed => "eth_usd_price_feed"
    case VrfCoordinator => "vrf_coordinator"
    case LinkToken => "link_token"
  }

  /** `CONTRACT_TO_MOCK[name]`: `None` is the KeyError of an unknown name. */
  function MockOf(name: string): (r: Option<ContractKind>)
    ensures r.Some? <==> name in {"eth_usd_price_feed", "vrf_coordinator", "link_token"}
    ensures r.Some? ==> MockName(r.value) == name
    ensures forall k :: MockName(k) == name ==> r == Some(k)
  {
    if name == "eth_usd_price_feed" then Some(PriceFeed)
    else if name == "vrf_coordinator" then Some(VrfCoordinator)
    else if name == "link_token" then Some(LinkToken)
    else None
  }

  function MockArgs(kind: ContractKind): seq<nat>
  {
    match kind
    case PriceFeed => [Decimals, StartingPrice]
    case VrfCoordinator => [BaseFee, GasPriceLink]
    case LinkToken => []
  }

  /** Python's `xs[i]` on a list of length `n`: negative indices count from
      the end; `None` is the IndexError. */
  function PyIndex(n: nat, i: int): (r: Option<nat>)
    ensures r.Some? <==> -(n as int) <= i < n
    ensures r.Some? ==> r.value < n && (r.value == i || r.value == n + i)
  {
    if 0 <= i < n then Some(i)
    else if -(n as int) <= i < 0 then Some(n + i)
    else None
  }

  /** `get_account(index, id)`. */
  function GetAccount(st: State, index: Option<int>, id: Option<string>): (r: Result<Account, Error>)
    ensures index.Some? ==> (r.Ok? <==> -|st.accounts| <= index.value < |st.accounts|)
    ensures index.Some? && r.Ok? ==> r == Ok(Stored(st.accounts[PyIndex(|st.accounts|, index.value).value]))
    ensures index.None? && id.Some? ==> r == Ok(Keystore(id.value))
  {
    if index.Some? then
      match PyIndex(|st.accounts|, index.value)
      case Some(i) => Ok(Stored(st.accounts[i]))
      case None => Err(IndexError(index.value))
    else if id.Some? then Ok(Keystore(id.value))
    else if IsLocal(st.network) || IsForked(st.network) then
      if |st.accounts| > 0 then Ok(Stored(st.accounts[0])) else Err(IndexError(0))
    else match st.walletKey
      case Some(key) => Ok(PrivateKey(key))
      case None => Err(KeyError("key_playground"))
  }

  /** An explicit index decides the account alone: the id, the network and
      the wallet key play no part. */
  lemma IndexTakesPrecedence(st: State, other: State, i: int, id: Option<string>, otherId: Option<string>)
    requires other.accounts == st.accounts
    ensures GetAccount(st, Some(i), id) == GetAccount(other, Some(i), otherId)
    ensures 0 <= i < |st.accounts| ==> GetAccount(st, Some(i), id) == Ok(Stored(st.accounts[i]))
  {
  }

  /** With neither an index nor an id, local and forked networks sign with
      the first local account and every other network with the account of
      the configured private key. */
  lemma DefaultAccount(st: State)
    ensures (IsLocal(st.network) || IsForked(st.network)) ==>
      GetAccount(st, None, None) == (if |st.accounts| > 0 then Ok(Stored(st.accounts[0])) else Err(IndexError(0)))
    ensures !IsLocal(st.network) && !IsForked(st.network) ==>
      (GetAccount(st, None, None).Ok? <==> st.walletKey.Some?) &&
      (st.walletKey.Some? ==> GetAccount(st, None, None) == Ok(PrivateKey(st.walletKey.value)))
  {
  }

  // ---------------------------------------------------------------------
  // deploy_mocks and get_contract

  /** `deploy_mocks(mock_name)` deploys the kind `kind`. */
  predicate Selects(mockName: Option<string>, kind: ContractKind)
  {
    mockName.None? || mockName.value == MockName(kind)
  }

  function DeployIfSelected(st: State, account: Account, mockName: Option<string>, kind: ContractKind): (r: State)
    ensures |Deployed(r, kind)| == |Deployed(st, kind)| + (if Selects(mockName, kind) then 1 else 0)
    ensures Deployed(st, kind) <= Deployed(r, kind)
    ensures forall k :: k != kind ==> Deployed(r, k) == Deployed(st, k)
    ensures Valid(st) ==> Valid(r)
    ensures Evolves(st, r) && r.configFile == st.configFile
    ensures forall t :: Count(r.history, t) == Count(st.history, t) + (if t == Deploys && Selects(mockName, kind) then 1 else 0)
    ensures !Selects(mockName, kind) ==> r == st
    ensures Valid(st) ==> MocksAdded(st, r)
  {
    if Selects(mockName, kind) then DeployOn(st, account, kind, MockArgs(kind)).1 else st
  }

  /** `deploy_mocks(mock_name)`: the account is resolved first; then the
      price feed, the coordinator and the LINK token are each deployed when
      `mock_name` is `None` or names them. */
  function DeployMocksStep(st: State, mockName: Option<string>): (out: (Result<(), Error>, State))
    ensures out.0.Ok? <==> GetAccount(st, None, None).Ok?
    ensures out.0.Err? ==> out.1 == st
    ensures forall k :: |Deployed(out.1, k)| == |Deployed(st, k)| + (if out.0.Ok? && Selects(mockName, k) then 1 else 0)
    ensures forall k :: Deployed(st, k) <= Deployed(out.1, k)
    ensures Valid(st) ==> Valid(out.1) && MocksAdded(st, out.1)
    ensures Evolves(st, out.1) && out.1.configFile == st.configFile
    ensures forall t :: t != Deploys ==> Count(out.1.history, t) == Count(st.history, t)
  {
    match GetAccount(st, None, None)
    case Err(e) => (Err(e), st)
    case Ok(account) =>
      var st1 := DeployIfSelected(st, account, mockName, PriceFeed);
      var st2 := DeployIfSelected(st1, account, mockName, VrfCoordinator);
      var st3 := DeployIfSelected(st2, account, mockName, LinkToken);
      EvolvesTransitive(st, st1, st2);
      EvolvesTransitive(st, st2, st3);
      (Ok(()), st3)
  }

  /** `deploy_mocks()` deploys one more contract of every kind. */
  lemma DeployMocksAll(st: State)
    requires GetAccount(st, None, None).Ok?
    ensures var post := DeployMocksStep(st, None).1;
      forall k :: |Deployed(post, k)| == |Deployed(st, k)| + 1
  {
  }

  /** `deploy_mocks(name)` deploys one contract of the kind `name` maps to
      and nothing else; an unknown name deploys nothing and leaves the
      state as it was. */
  lemma DeployMocksByName(st: State, name: string)
    requires GetAccount(st, None, None).Ok?
    ensures var post := DeployMocksStep(st, Some(name)).1;
      && (forall k :: |Deployed(post, k)| == |Deployed(st, k)| + (if MockOf(name) == Some(k) then 1 else 0))
      && (MockOf(name).None? ==> post == st)
  {
    var post := DeployMocksStep(st, Some(name)).1;
    forall k
      ensures |Deployed(post, k)| == |Deployed(st, k)| + (if MockOf(name) == Some(k) then 1 else 0)
    {
      assert Selects(Some(name), k) <==> MockOf(name) == Some(k);
    }
    if MockOf(name).None? {
      assert forall k :: !Selects(Some(name), k);
    }
  }

  function Last(s: seq<Address>): Address
    requires |s| > 0
  {
    s[|s| - 1]
  }

  /** The address `get_contract(name)` binds to without deploying anything:
      the latest mock on a local chain, the configured one elsewhere. */
  function ResolvedAddress(st: State, name: string): Option<Address>
  {
    match MockOf(name)
    case None => None
    case Some(kind) =>
      if IsLocal(st.network) then
        if |Deployed(st, kind)| > 0 then Some(Last(Deployed(st, kind))) else None
      else if st.network in st.config && name in st.config[st.network].addresses then
        Some(st.config[st.network].addresses[name])
      else None
  }

  /** `get_contract(contract_name)`. */
  function GetContractStep(st: State, name: string): (out: (Result<Contract, Error>, State))
    ensures MockOf(name).None? ==> out == (Err(KeyError(name)), st)
    ensures out.0.Ok? ==> MockOf(name) == Some(out.0.value.kind) && ResolvedAddress(out.1, name) == Some(out.0.value.address)
    ensures !IsLocal(st.network) ==> out.1 == st
    ensures ResolvedAddress(st, name).Some? ==> out == (Ok(Contract(MockOf(name).value, ResolvedAddress(st, name).value)), st)
    ensures Valid(st) ==> Valid(out.1) && MocksAdded(st, out.1)
    ensures Evolves(st, out.1) && out.1.configFile == st.configFile
    ensures forall t :: t != Deploys ==> Count(out.1.history, t) == Count(st.history, t)
  {
    match MockOf(name)
    case None => (Err(KeyError(name)), st)
    case Some(kind) =>
      if IsLocal(st.network) then
        var (deployed, st1) := if |Deployed(st, kind)| == 0 then DeployMocksStep(st, Some(name)) else (Ok(()), st);
        if deployed.Err? then (Err(deployed.error), st1)
        else (Ok(Contract(kind, Last(Deployed(st1, kind)))), st1)
      else if st.network !in st.config then (Err(KeyError(st.network)), st)
      else if name !in st.config[st.network].addresses then (Err(KeyError(name)), st)
      else (Ok(Contract(kind, st.config[st.network].addresses[name])), st)
  }

  /** On a local chain with no mock of the kind yet, exactly one mock of
      that kind is deployed, no other kind is deployed, and the new mock is
      the contract returned. */
  lemma GetContractDeploysLazily(st: State, name: string)
    requires MockOf(name).Some? && IsLocal(st.network)
    requires Deployed(st, MockOf(name).value) == []
    requires GetAccount(st, None, None).Ok?
    ensures var (r, post) := GetContractStep(st, name);
      && r.Ok? && r.value.kind == MockOf(name).value
      && Deployed(post, r.value.kind) == [r.value.address]
      && (forall k :: k != r.value.kind ==> |Deployed(post, k)| == |Deployed(st, k)|)
      && Count(post.history, Deploys) == Count(st.history, Deploys) + 1
  {
    var kind := MockOf(name).value;
    var (r, post) := GetContractStep(st, name);
    var account := GetAccount(st, None, None).value;
    var st1 := DeployIfSelected(st, account, Some(name), PriceFeed);
    var st2 := DeployIfSelected(st1, account, Some(name), VrfCoordinator);
    var st3 := DeployIfSelected(st2, account, Some(name), LinkToken);
    assert post == st3;
    forall k | k != kind
      ensures !Selects(Some(name), k)
    {
    }
  }

  /** On any network outside `LocalBlockchainEnv` (forked ones included)
      nothing is deployed: the contract is bound to the configured address,
      and a missing entry is a KeyError. */
  lemma GetContractOffLocal(st: State, name: string)
    requires MockOf(name).Some? && !IsLocal(st.network)
    ensures var (r, post) := GetContractStep(st, name);
      && post == st
      && (r.Ok? <==> st.network in st.config && name in st.config[st.network].addresses)
      && (r.Ok? ==> r.value == Contract(MockOf(name).value, st.config[st.network].addresses[name]))
  {
  }

  method DeployMocks(b: Session, mockName: Option<string>) returns (r: Result<(), Error>)
    modifies b
    ensures (r, b.View()) == DeployMocksStep(old(b.View()), mockName)
  {
    var account :- GetAccount(b.View(), None, None);
    if mockName.None? || mockName.value == "eth_usd_price_feed" {
      var _ := b.Deploy(account, PriceFeed, [Decimals, StartingPrice]);
    }
    if mockName.None? || mockName.value == "vrf_coordinator" {
      var _ := b.Deploy(account, VrfCoordinator, [BaseFee, GasPriceLink]);
    }
    if mockName.None? || mockName.value == "link_token" {
      var _ := b.Deploy(account, LinkToken, []);
    }
    r := Ok(());
  }

  method GetContract(b: Session, name: string) returns (r: Result<Contract, Error>)
    modifies b
    ensures (r, b.View()) == GetContractStep(old(b.View()), name)
  {
    var kind := MockOf(name);
    if kind.None? {
      return Err(KeyError(name));
    }
    if IsLocal(b.network) {
      if |Deployed(b.View(), kind.value)| == 0 {
        var deployed := DeployMocks(b, Some(name));
        if deployed.Err? {
          return Err(deployed.error);
        }
      }
      var mocks := Deployed(b.View(), kind.value);
      r := Ok(Contract(kind.value, mocks[|mocks| - 1]));
    } else {
      if b.network !in b.config {
        return Err(KeyError(b.network));
      }
      if name !in b.config[b.network].addresses {
        return Err(KeyError(name));
      }
      r := Ok(Contract(kind.value, b.config[b.network].addresses[name]));
    }
  }
}
