/** Testnet/mainnet environment management (backend/services/hyperliquid_environment.py).
    The tables the service touches are fields of one `TradingStore` object, each a
    sequence of rows in table order; encryption is a function parameter and the
    exchange client is left out. */
module HyperliquidEnvironment {
  import opened Wrappers
  import opened Seqs
  import Text

  /** The two environments a stored value may name. */
  predicate IsEnvironment(e: string) {
    e == "testnet" || e == "mainnet"
  }

  /** Python truthiness of a nullable string column. */
  predicate Truthy(s: Option<string>) {
    s.Some? && s.value != ""
  }

  /** A row of the accounts table, reduced to the Hyperliquid columns. */
  datatype Account = Account(
    id: int,
    name: string,
    testnetKey: Option<string>,
    mainnetKey: Option<string>,
    environment: Option<string>,
    enabled: Option<string>,
    maxLeverage: Option<int>,
    defaultLeverage: Option<int>)

  /** The legacy (account-table) key for an environment; anything but "testnet" reads the mainnet key. */
  function LegacyKey(a: Account, environment: string): Option<string> {
    if environment == "testnet" then a.testnetKey else a.mainnetKey
  }

  /** A row of hyperliquid_wallets. */
  datatype Wallet = Wallet(
    id: int, accountId: int, environment: string,
    keyEncrypted: string, address: string,
    maxLeverage: int, defaultLeverage: int,
    isActive: Option<string>)

  /** A row of hyperliquid_positions. */
  datatype Position = Position(accountId: int, environment: string, symbol: string, size: Option<real>)

  datatype Leverage = Leverage(maxLeverage: int, defaultLeverage: int)

  /** What `get_hyperliquid_client` decrypts and hands to the client. */
  datatype ClientKey = ClientKey(environment: string, keyEncrypted: string, walletAddress: Option<string>)

  datatype AccountConfig = AccountConfig(
    enabled: bool, environment: string, leverage: Leverage,
    testnetConfigured: bool, mainnetConfigured: bool)

  datatype SetupInfo = SetupInfo(accountId: int, environment: string, maxLeverage: int, defaultLeverage: int)

  datatype SwitchRejection = NotConfirmed | InvalidTarget | AccountNotFound | OpenPositions(count: nat) | MissingTargetKey

  /** `CommittedReturnFailed`: the switch was committed, but building the success reply
      reads a name that is never defined, so the call raises after the commit. */
  datatype SwitchOutcome = NoChange(current: string) | Rejected(why: SwitchRejection) | CommittedReturnFailed

  /** The ValueError every lookup of a missing account raises: `f"Account {account_id} not found"`. */
  function AccountNotFoundText(accountId: int): string {
    "Account " + Text.IntToString(accountId) + " not found"
  }

  /** The ValueError of `enable_hyperliquid_trading` for an account without an environment. */
  const NO_ENVIRONMENT_TEXT := "No environment configured. Please setup Hyperliquid first using setup_hyperliquid_account()."

  /** The ValueError of `get_hyperliquid_client` when neither a wallet nor a legacy key exists. */
  function NoWalletText(a: Account, accountId: int): string {
    "No wallet configured for account " + a.name + " (ID: " + Text.IntToString(accountId) + "). "
    + "Please configure Hyperliquid wallet in AI Trader settings."
  }

  /** The row of an account id (`filter(Account.id == id).first()`). */
  function FindAccount(accounts: seq<Account>, accountId: int): (r: Option<nat>)
    ensures r.Some? ==> r.value < |accounts| && accounts[r.value].id == accountId
    ensures r.Some? ==> forall j :: 0 <= j < r.value ==> accounts[j].id != accountId
    ensures r.None? ==> forall j :: 0 <= j < |accounts| ==> accounts[j].id != accountId
  {
    FirstWhere(accounts, (a: Account) => a.id == accountId)
  }

  /** Rewriting an account row in place keeps it the row found for its id. */
  lemma FindAccountAfterUpdate(accounts: seq<Account>, i: nat, a: Account)
    requires FindAccount(accounts, a.id) == Some(i)
    ensures FindAccount(accounts[i := a], a.id) == Some(i)
  {
    assert accounts[i := a][i].id == a.id;
    assert forall j :: 0 <= j < i ==> accounts[i := a][j] == accounts[j];
  }

  /** The first wallet of the pair, active or not. */
  function FindWallet(ws: seq<Wallet>, accountId: int, environment: string): (r: Option<nat>)
    ensures r.Some? ==> r.value < |ws| && ws[r.value].accountId == accountId && ws[r.value].environment == environment
    ensures r.None? ==> forall j :: 0 <= j < |ws| ==> !(ws[j].accountId == accountId && ws[j].environment == environment)
  {
    FirstWhere(ws, (w: Wallet) => w.accountId == accountId && w.environment == environment)
  }

  /** The first wallet of the pair whose is_active is exactly "true". */
  function FindActiveWallet(ws: seq<Wallet>, accountId: int, environment: string): (r: Option<nat>)
    ensures r.Some? ==>
      r.value < |ws| && ws[r.value].accountId == accountId
      && ws[r.value].environment == environment && ws[r.value].isActive == Some("true")
    ensures r.None? ==> forall j :: 0 <= j < |ws| ==>
      !(ws[j].accountId == accountId && ws[j].environment == environment && ws[j].isActive == Some("true"))
  {
    FirstWhere(ws, (w: Wallet) => w.accountId == accountId && w.environment == environment && w.isActive == Some("true"))
  }

  /** A wallet marked inactive: is_active is truthy and lower-cases to "false". */
  predicate MarkedInactive(w: Wallet) {
    Truthy(w.isActive) && Text.Lower(w.isActive.value) == "false"
  }

  predicate HasOpenSize(p: Position) {
    p.size.Some? && p.size.value != 0.0
  }

  /** The filter of the positions query: the rows of one account and environment. */
  function OfPair(accountId: int, environment: string): Position -> bool {
    (p: Position) => p.accountId == accountId && p.environment == environment
  }

  /** The first `limit` rows of `positions` that belong to the account and environment
      (the table is kept newest snapshot first, so these are the most recent ones). */
  function RecentPositions(positions: seq<Position>, accountId: int, environment: string, limit: nat): (r: seq<Position>)
    ensures |r| <= limit
    ensures forall p :: p in r ==> p in positions && p.accountId == accountId && p.environment == environment
    decreases |positions|
  {
    if positions == [] || limit == 0 then []
    else if positions[0].accountId == accountId && positions[0].environment == environment then
      [positions[0]] + RecentPositions(positions[1..], accountId, environment, limit - 1)
    else RecentPositions(positions[1..], accountId, environment, limit)
  }

  /** The `.limit(limit)` rows are the first `limit` rows of the account and environment,
      in table order. */
  lemma {:induction false} RecentPositionsArePrefix(positions: seq<Position>, accountId: int, environment: string, limit: nat)
    ensures var rows := Filter(positions, OfPair(accountId, environment));
            RecentPositions(positions, accountId, environment, limit) == rows[..if limit < |rows| then limit else |rows|]
    decreases |positions|
  {
    var mine := OfPair(accountId, environment);
    if positions == [] || limit == 0 {
      assert RecentPositions(positions, accountId, environment, limit) == [];
    } else {
      var rest := Filter(positions[1..], mine);
      assert positions == [positions[0]] + positions[1..];
      FilterCons(positions[0], positions[1..], mine);
      if mine(positions[0]) {
        RecentPositionsArePrefix(positions[1..], accountId, environment, limit - 1);
        var tail := RecentPositions(positions[1..], accountId, environment, limit - 1);
        assert RecentPositions(positions, accountId, environment, limit) == [positions[0]] + tail;
        assert Filter(positions, mine) == [positions[0]] + rest;
        assert ([positions[0]] + rest)[..if limit < |rest| + 1 then limit else |rest| + 1] == [positions[0]] + tail;
      } else {
        RecentPositionsArePrefix(positions[1..], accountId, environment, limit);
        assert RecentPositions(positions, accountId, environment, limit)
            == RecentPositions(positions[1..], accountId, environment, limit);
        assert Filter(positions, mine) == rest;
      }
    }
  }

  /** The number of positions with a non-zero size. */
  function OpenCount(ps: seq<Position>): (n: nat)
    ensures n <= |ps|
    ensures n == 0 <==> forall p :: p in ps ==> !HasOpenSize(p)
    decreases |ps|
  {
    if ps == [] then 0
    else
      assert forall p :: p in ps ==> p == ps[0] || p in ps[1..];
      (if HasOpenSize(ps[0]) then 1 else 0) + OpenCount(ps[1..])
  }

  function Synced(a: Account, target: string): Account {
    if a.enabled == Some("true") then a.(environment := Some(target)) else a
  }

  /** The loop of the switch: every account with hyperliquid_enabled == "true" moves to `target`. */
  method SyncEnabledAccounts(accounts: seq<Account>, target: string) returns (synced: seq<Account>)
    ensures |synced| == |accounts|
    ensures forall i :: 0 <= i < |accounts| ==> synced[i] == Synced(accounts[i], target)
  {
    synced := accounts;
    for i := 0 to |accounts|
      invariant |synced| == |accounts|
      invariant forall j :: 0 <= j < i ==> synced[j] == Synced(accounts[j], target)
      invariant forall j :: i <= j < |accounts| ==> synced[j] == accounts[j]
    {
      if synced[i].enabled == Some("true") {
        synced := synced[i := synced[i].(environment := Some(target))];
      }
    }
  }

  class TradingStore {
    var accounts: seq<Account>
    var wallets: seq<Wallet>
    /** Position snapshots, newest snapshot first. */
    var positions: seq<Position>
    /** The value of the system_configs row "hyperliquid_trading_mode"; None when there is no row. */
    var tradingMode: Option<string>
    /** The id the next inserted wallet receives. */
    var nextWalletId: int

    constructor (accounts: seq<Account>, wallets: seq<Wallet>, positions: seq<Position>, tradingMode: Option<string>, nextWalletId: int)
      ensures this.accounts == accounts && this.wallets == wallets && this.positions == positions
      ensures this.tradingMode == tradingMode && this.nextWalletId == nextWalletId
    {
      this.accounts := accounts;
      this.wallets := wallets;
      this.positions := positions;
      this.tradingMode := tradingMode;
      this.nextWalletId := nextWalletId;
    }

    predicate HasAccount(accountId: int)
      reads this
    {
      FindAccount(accounts, accountId).Some?
    }

    function AccountOf(accountId: int): Account
      reads this
      requires HasAccount(accountId)
    {
      accounts[FindAccount(accounts, accountId).value]
    }

    /** `get_global_trading_mode`: the stored mode when it names an environment, else testnet. */
    function GlobalMode(): (m: string)
      reads this
      ensures IsEnvironment(m)
      ensures tradingMode.Some? && IsEnvironment(tradingMode.value) ==> m == tradingMode.value
      ensures !(tradingMode.Some? && IsEnvironment(tradingMode.value)) ==> m == "testnet"
    {
      if tradingMode.Some? && IsEnvironment(tradingMode.value) then tradingMode.value else "testnet"
    }

    /** Every Hyperliquid-enabled account is on the global mode. */
    predicate InSync()
      reads this
    {
      forall i :: 0 <= i < |accounts| && accounts[i].enabled == Some("true") ==> accounts[i].environment == Some(GlobalMode())
    }

    /** `get_leverage_settings` */
    function LeverageSettings(accountId: int, environment: string): (r: Result<Leverage, string>)
      reads this
      ensures r.Ok? <==> IsEnvironment(environment) && HasAccount(accountId)
      ensures IsEnvironment(environment) && !HasAccount(accountId) ==> r == Err(AccountNotFoundText(accountId))
      ensures r.Ok? && FindActiveWallet(wallets, accountId, environment).Some? ==>
        var w := wallets[FindActiveWallet(wallets, accountId, environment).value];
        r.value == Leverage(w.maxLeverage, w.defaultLeverage)
      ensures r.Ok? && FindActiveWallet(wallets, accountId, environment).None? ==>
        r.value == Leverage(AccountOf(accountId).maxLeverage.GetOr(3), AccountOf(accountId).defaultLeverage.GetOr(1))
    {
      if !IsEnvironment(environment) then Err("Invalid environment: " + environment + ". Must be 'testnet' or 'mainnet'")
      else if !HasAccount(accountId) then Err(AccountNotFoundText(accountId))
      else
        var i := FindActiveWallet(wallets, accountId, environment);
        if i.Some? then Ok(Leverage(wallets[i.value].maxLeverage, wallets[i.value].defaultLeverage))
        else
          var a := AccountOf(accountId);
          Ok(Leverage(if a.maxLeverage.Some? then a.maxLeverage.value else 3,
                      if a.defaultLeverage.Some? then a.defaultLeverage.value else 1))
    }

    /** The environment `get_hyperliquid_client` works on: a truthy override, else the global mode. */
    function ClientEnvironment(overrideEnvironment: Option<string>): string
      reads this
    {
      if Truthy(overrideEnvironment) then overrideEnvironment.value else GlobalMode()
    }

    /** The wallet `get_hyperliquid_client` uses: the first of the pair, unless marked inactive. */
    function UsableWallet(accountId: int, environment: string): (r: Option<Wallet>)
      reads this
      ensures r.Some? ==> r.value in wallets && r.value.accountId == accountId && r.value.environment == environment
      ensures r.Some? ==> !MarkedInactive(r.value)
      ensures r.Some? <==> FindWallet(wallets, accountId, environment).Some?
                           && !MarkedInactive(wallets[FindWallet(wallets, accountId, environment).value])
      ensures r.Some? ==> r.value == wallets[FindWallet(wallets, accountId, environment).value]
    {
      var i := FindWallet(wallets, accountId, environment);
      if i.Some? && !MarkedInactive(wallets[i.value]) then Some(wallets[i.value]) else None
    }

    /** The key selection of `get_hyperliquid_client` (decryption and the client are left out). */
    function ClientKeyFor(accountId: int, overrideEnvironment: Option<string>): (r: Result<ClientKey, string>)
      reads this
      ensures !HasAccount(accountId) ==> r == Err(AccountNotFoundText(accountId))
      ensures Truthy(overrideEnvironment) && !IsEnvironment(overrideEnvironment.value) ==> r.Err?
      ensures HasAccount(accountId) && !(Truthy(overrideEnvironment) && !IsEnvironment(overrideEnvironment.value))
        && UsableWallet(accountId, ClientEnvironment(overrideEnvironment)).None?
        && !Truthy(LegacyKey(AccountOf(accountId), ClientEnvironment(overrideEnvironment)))
        ==> r == Err(NoWalletText(AccountOf(accountId), accountId))
      ensures r.Ok? ==> r.value.environment == ClientEnvironment(overrideEnvironment) && IsEnvironment(r.value.environment)
      ensures r.Ok? && UsableWallet(accountId, r.value.environment).Some? ==>
        var w := UsableWallet(accountId, r.value.environment).value;
        r.value.keyEncrypted == w.keyEncrypted && r.value.walletAddress == Some(w.address)
      ensures r.Ok? && UsableWallet(accountId, r.value.environment).None? ==>
        r.value.walletAddress.None? && Some(r.value.keyEncrypted) == LegacyKey(AccountOf(accountId), r.value.environment)
      ensures HasAccount(accountId) && !(Truthy(overrideEnvironment) && !IsEnvironment(overrideEnvironment.value)) ==>
        var e := ClientEnvironment(overrideEnvironment);
        (r.Ok? <==> UsableWallet(accountId, e).Some? || Truthy(LegacyKey(AccountOf(accountId), e)))
    {
      if !HasAccount(accountId) then Err(AccountNotFoundText(accountId))
      else if Truthy(overrideEnvironment) && !IsEnvironment(overrideEnvironment.value) then
        Err("override_environment must be 'testnet' or 'mainnet'")
      else
        var e := ClientEnvironment(overrideEnvironment);
        var w := UsableWallet(accountId, e);
        if w.Some? then Ok(ClientKey(e, w.value.keyEncrypted, Some(w.value.address)))
        else
          var key := LegacyKey(AccountOf(accountId), e);
          if !Truthy(key) then Err(NoWalletText(AccountOf(accountId), accountId))
          else Ok(ClientKey(e, key.value, None))
    }

    /** `get_account_hyperliquid_config` */
    function AccountConfigOf(accountId: int): (r: Result<AccountConfig, string>)
      reads this
      ensures r.Ok? <==> HasAccount(accountId)
      ensures r.Err? ==> r.error == AccountNotFoundText(accountId)
      ensures r.Ok? ==> r.value.environment == GlobalMode()
      ensures r.Ok? ==> (r.value.enabled <==>
        FindActiveWallet(wallets, accountId, "testnet").Some? || FindActiveWallet(wallets, accountId, "mainnet").Some?
        || AccountOf(accountId).enabled == Some("true"))
      ensures r.Ok? ==> (r.value.testnetConfigured <==>
        FindActiveWallet(wallets, accountId, "testnet").Some? || Truthy(AccountOf(accountId).testnetKey))
      ensures r.Ok? ==> (r.value.mainnetConfigured <==>
        FindActiveWallet(wallets, accountId, "mainnet").Some? || Truthy(AccountOf(accountId).mainnetKey))
      ensures r.Ok? ==> LeverageSettings(accountId, GlobalMode()) == Ok(r.value.leverage)
    {
      if !HasAccount(accountId) then Err(AccountNotFoundText(accountId))
      else
        var a := AccountOf(accountId);
        var hasTestnetWallet := FindActiveWallet(wallets, accountId, "testnet").Some?;
        var hasMainnetWallet := FindActiveWallet(wallets, accountId, "mainnet").Some?;
        var mode := GlobalMode();
        // the source falls back to the account columns if this raises; with a valid mode and
        // an existing account it does not
        var leverage := LeverageSettings(accountId, mode);
        Ok(AccountConfig(
          hasTestnetWallet || hasMainnetWallet || a.enabled == Some("true"),
          mode,
          leverage.value,
          hasTestnetWallet || Truthy(a.testnetKey),
          hasMainnetWallet || Truthy(a.mainnetKey)))
    }

    /** `setup_hyperliquid_account`; `encrypt` returns None when encryption fails. */
    method SetupAccount(accountId: int, environment: string, privateKey: string,
                        encrypt: string -> Option<string>, maxLeverage: int, defaultLeverage: int)
      returns (r: Result<SetupInfo, string>)
      modifies this
      ensures wallets == old(wallets) && positions == old(positions) && tradingMode == old(tradingMode)
      ensures nextWalletId == old(nextWalletId)
      ensures r.Err? ==> accounts == old(accounts)
      ensures !IsEnvironment(environment) || !(1 <= maxLeverage <= 50) || !(1 <= defaultLeverage <= maxLeverage)
        ==> r.Err?
      ensures r.Ok? <==>
        IsEnvironment(environment) && 1 <= maxLeverage <= 50 && 1 <= defaultLeverage <= maxLeverage
        && old(HasAccount(accountId)) && encrypt(privateKey).Some?
      ensures IsEnvironment(environment) && 1 <= maxLeverage <= 50 && !(1 <= defaultLeverage <= maxLeverage)
        ==> r == Err("default_leverage must be between 1 and " + Text.IntToString(maxLeverage))
      ensures (IsEnvironment(environment) && 1 <= maxLeverage <= 50 && 1 <= defaultLeverage <= maxLeverage
               && !old(HasAccount(accountId))) ==> r == Err(AccountNotFoundText(accountId))
      ensures r.Ok? ==>
        var i := FindAccount(old(accounts), accountId).value;
        var a := old(accounts)[i];
        var keyed := if environment == "testnet" then a.(testnetKey := encrypt(privateKey)) else a.(mainnetKey := encrypt(privateKey));
        && accounts == old(accounts)[i := keyed.(environment := Some(old(GlobalMode())), enabled := Some("true"),
                                                 maxLeverage := Some(maxLeverage), defaultLeverage := Some(defaultLeverage))]
        && r.value == SetupInfo(accountId, environment, maxLeverage, defaultLeverage)
      ensures r.Ok? ==> AccountConfigOf(accountId).Ok? && AccountConfigOf(accountId).value.enabled
      ensures r.Ok? && environment == "testnet" && Truthy(encrypt(privateKey)) ==> AccountConfigOf(accountId).value.testnetConfigured
      ensures r.Ok? && environment == "mainnet" && Truthy(encrypt(privateKey)) ==> AccountConfigOf(accountId).value.mainnetConfigured
      ensures old(InSync()) ==> InSync()
    {
      if !IsEnvironment(environment) {
        return Err("Environment must be 'testnet' or 'mainnet'");
      }
      if maxLeverage < 1 || maxLeverage > 50 {
        return Err("max_leverage must be between 1 and 50");
      }
      if defaultLeverage < 1 || defaultLeverage > maxLeverage {
        return Err("default_leverage must be between 1 and " + Text.IntToString(maxLeverage));
      }
      var i := FindAccount(accounts, accountId);
      if i.None? {
        return Err(AccountNotFoundText(accountId));
      }
      var encrypted := encrypt(privateKey);
      if encrypted.None? {
        return Err("Private key encryption failed");
      }
      StoreSetup(i.value, environment, encrypted, maxLeverage, defaultLeverage);
      r := Ok(SetupInfo(accountId, environment, maxLeverage, defaultLeverage));
    }

    /** The writes of `setup_hyperliquid_account` to the account at `i`. */
    method StoreSetup(i: nat, environment: string, encrypted: Option<string>, maxLeverage: int, defaultLeverage: int)
      requires i < |accounts| && FindAccount(accounts, accounts[i].id) == Some(i)
      modifies this
      ensures wallets == old(wallets) && positions == old(positions) && tradingMode == old(tradingMode)
      ensures nextWalletId == old(nextWalletId)
      ensures
        var a := old(accounts)[i];
        var keyed := if environment == "testnet" then a.(testnetKey := encrypted) else a.(mainnetKey := encrypted);
        accounts == old(accounts)[i := keyed.(environment := Some(old(GlobalMode())), enabled := Some("true"),
                                              maxLeverage := Some(maxLeverage), defaultLeverage := Some(defaultLeverage))]
      ensures FindAccount(accounts, accounts[i].id) == Some(i)
      ensures environment == "testnet" ==> accounts[i].testnetKey == encrypted
      ensures environment != "testnet" ==> accounts[i].mainnetKey == encrypted
      ensures accounts[i].enabled == Some("true") && accounts[i].environment == Some(GlobalMode())
      ensures old(InSync()) ==> InSync()
    {
      var a := accounts[i];
      if environment == "testnet" {
        a := a.(testnetKey := encrypted);
      } else {
        a := a.(mainnetKey := encrypted);
      }
      var mode := GlobalMode();
      a := a.(environment := Some(mode), enabled := Some("true"),
              maxLeverage := Some(maxLeverage), defaultLeverage := Some(defaultLeverage));
      FindAccountAfterUpdate(accounts, i, a);
      accounts := accounts[i := a];
    }

    /** `switch_hyperliquid_environment`. The guards run in the order listed; a committed
        switch sets the global mode and moves every enabled account to the target. */
    method SwitchEnvironment(accountId: int, target: string, confirm: bool) returns (r: SwitchOutcome)
      modifies this
      ensures wallets == old(wallets) && positions == old(positions) && nextWalletId == old(nextWalletId)
      ensures !confirm ==> r == Rejected(NotConfirmed)
      ensures confirm && !IsEnvironment(target) ==> r == Rejected(InvalidTarget)
      ensures confirm && IsEnvironment(target) && !old(HasAccount(accountId)) ==> r == Rejected(AccountNotFound)
      ensures (confirm && IsEnvironment(target) && old(HasAccount(accountId))
               && old(AccountOf(accountId)).environment == Some(target)) ==> r == NoChange(target)
      ensures (confirm && IsEnvironment(target) && old(HasAccount(accountId))
               && old(AccountOf(accountId)).environment != Some(target)
               && Truthy(old(AccountOf(accountId)).environment)
               && OpenCount(RecentPositions(positions, accountId, old(AccountOf(accountId)).environment.value, 20)) > 0)
              ==> r == Rejected(OpenPositions(OpenCount(RecentPositions(positions, accountId,
                                                                          old(AccountOf(accountId)).environment.value, 20))))
      ensures (confirm && IsEnvironment(target) && old(HasAccount(accountId))
               && old(AccountOf(accountId)).environment != Some(target)
               && (Truthy(old(AccountOf(accountId)).environment) ==>
                     OpenCount(RecentPositions(positions, accountId, old(AccountOf(accountId)).environment.value, 20)) == 0)
               && !Truthy(LegacyKey(old(AccountOf(accountId)), target)))
              ==> r == Rejected(MissingTargetKey)
      ensures r.Rejected? && r.why.OpenPositions? ==>
        var current := old(AccountOf(accountId)).environment;
        Truthy(current) && r.why.count == OpenCount(RecentPositions(positions, accountId, current.value, 20)) && r.why.count > 0
      ensures r.Rejected? && r.why == MissingTargetKey ==> !Truthy(LegacyKey(old(AccountOf(accountId)), target))
      ensures !r.CommittedReturnFailed? ==> accounts == old(accounts) && tradingMode == old(tradingMode)
      ensures r.CommittedReturnFailed? <==>
        confirm && IsEnvironment(target) && old(HasAccount(accountId))
        && old(AccountOf(accountId)).environment != Some(target)
        && (Truthy(old(AccountOf(accountId)).environment) ==>
              OpenCount(RecentPositions(positions, accountId, old(AccountOf(accountId)).environment.value, 20)) == 0)
        && Truthy(LegacyKey(old(AccountOf(accountId)), target))
      ensures r.CommittedReturnFailed? ==>
        && tradingMode == Some(target) && GlobalMode() == target && InSync()
        && |accounts| == |old(accounts)|
        && forall i :: 0 <= i < |accounts| ==> accounts[i] == Synced(old(accounts)[i], target)
    {
      if !confirm {
        return Rejected(NotConfirmed);
      }
      if !IsEnvironment(target) {
        return Rejected(InvalidTarget);
      }
      if !HasAccount(accountId) {
        return Rejected(AccountNotFound);
      }
      var account := AccountOf(accountId);
      var current := account.environment;
      if current == Some(target) {
        return NoChange(target);
      }
      if Truthy(current) {
        var recent := RecentPositions(positions, accountId, current.value, 20);
        var open := OpenCount(recent);
        if open > 0 {
          return Rejected(OpenPositions(open));
        }
      }
      if !Truthy(LegacyKey(account, target)) {
        return Rejected(MissingTargetKey);
      }
      tradingMode := Some(target);
      accounts := SyncEnabledAccounts(accounts, target);
      r := CommittedReturnFailed;
    }

    /** `disable_hyperliquid_trading`: clears only the enabled flag; keys stay. */
    method DisableTrading(accountId: int) returns (r: Result<(), string>)
      modifies this
      ensures wallets == old(wallets) && positions == old(positions) && tradingMode == old(tradingMode)
      ensures nextWalletId == old(nextWalletId)
      ensures r.Ok? <==> old(HasAccount(accountId))
      ensures r.Err? ==> r.error == AccountNotFoundText(accountId)
      ensures r.Err? ==> accounts == old(accounts)
      ensures r.Ok? ==>
        var i := FindAccount(old(accounts), accountId).value;
        accounts == old(accounts)[i := old(accounts)[i].(enabled := Some("false"))]
      ensures r.Ok? ==> AccountConfigOf(accountId).Ok? && (AccountConfigOf(accountId).value.enabled <==>
        FindActiveWallet(wallets, accountId, "testnet").Some? || FindActiveWallet(wallets, accountId, "mainnet").Some?)
      ensures old(InSync()) ==> InSync()
    {
      var i := FindAccount(accounts, accountId);
      if i.None? {
        return Err(AccountNotFoundText(accountId));
      }
      FindAccountAfterUpdate(accounts, i.value, accounts[i.value].(enabled := Some("false")));
      accounts := accounts[i.value := accounts[i.value].(enabled := Some("false"))];
      r := Ok(());
    }

    /** `enable_hyperliquid_trading`: needs a configured environment and its legacy key. */
    method EnableTrading(accountId: int) returns (r: Result<string, string>)
      modifies this
      ensures wallets == old(wallets) && positions == old(positions) && tradingMode == old(tradingMode)
      ensures nextWalletId == old(nextWalletId)
      ensures r.Ok? <==>
        old(HasAccount(accountId)) && Truthy(old(AccountOf(accountId)).environment)
        && Truthy(LegacyKey(old(AccountOf(accountId)), old(AccountOf(accountId)).environment.value))
      ensures !old(HasAccount(accountId)) ==> r == Err(AccountNotFoundText(accountId))
      ensures old(HasAccount(accountId)) && !Truthy(old(AccountOf(accountId)).environment) ==>
        r == Err(NO_ENVIRONMENT_TEXT)
      ensures r.Err? ==> accounts == old(accounts)
      ensures r.Ok? ==>
        var i := FindAccount(old(accounts), accountId).value;
        r.value == old(accounts)[i].environment.value
        && accounts == old(accounts)[i := old(accounts)[i].(enabled := Some("true"))]
    {
      var i := FindAccount(accounts, accountId);
      if i.None? {
        return Err(AccountNotFoundText(accountId));
      }
      var env := accounts[i.value].environment;
      if !Truthy(env) {
        return Err(NO_ENVIRONMENT_TEXT);
      }
      if !Truthy(LegacyKey(accounts[i.value], env.value)) {
        return Err(if env.value == "testnet" then "No testnet private key configured" else "No mainnet private key configured");
      }
      accounts := accounts[i.value := accounts[i.value].(enabled := Some("true"))];
      r := Ok(env.value);
    }
  }

  /** With no active wallet for the pair and no leverage columns, the settings are 3x / 1x. */
  lemma LeverageFallsBackToDefaults(store: TradingStore, accountId: int, environment: string)
    requires IsEnvironment(environment) && store.HasAccount(accountId)
    requires FindActiveWallet(store.wallets, accountId, environment).None?
    requires store.AccountOf(accountId).maxLeverage.None? && store.AccountOf(accountId).defaultLeverage.None?
    ensures store.LeverageSettings(accountId, environment) == Ok(Leverage(3, 1))
  {
  }

  /** A first wallet marked inactive ("false", "FALSE", ...) is never used: the legacy key decides. */
  lemma InactiveWalletIgnored(store: TradingStore, accountId: int, environment: string)
    requires IsEnvironment(environment) && store.HasAccount(accountId)
    requires FindWallet(store.wallets, accountId, environment).Some?
    requires MarkedInactive(store.wallets[FindWallet(store.wallets, accountId, environment).value])
    ensures store.ClientKeyFor(accountId, Some(environment)).Ok? <==> Truthy(LegacyKey(store.AccountOf(accountId), environment))
  {
  }
}
