/** The wallet, trading-mode, order and history handlers of backend/api/hyperliquid_routes.py.
    They work on the same `TradingStore` as the environment service. Request-model
    validation (the pydantic field constraints) answers 422 before a handler runs. */
module HyperliquidRoutes {
  import opened Wrappers
  import opened Seqs
  import opened HyperliquidEnvironment
  import Text

  // ---------------------------------------------------------------- route status of the service wrappers

  /** The HTTP status the switch-environment route answers with: ValueError is 400, any
      other exception 500. A committed switch raises after the commit, so it is 500. */
  function SwitchRouteStatus(o: SwitchOutcome): (status: int)
    ensures status == 200 <==> o.NoChange?
    ensures status == 400 <==> o.Rejected?
    ensures status == 500 <==> o.CommittedReturnFailed?
  {
    match o
    case NoChange(_) => 200
    case Rejected(_) => 400
    case CommittedReturnFailed => 500
  }

  /** The status of the whole switch request. The request model only admits a target
      matching ^(testnet|mainnet)$, so any other target is answered 422 before the service
      runs and its outcome (`o`, the outcome the service would give) plays no part. */
  function SwitchRequestStatus(target: string, o: SwitchOutcome): (status: int)
    ensures status == 422 <==> !IsEnvironment(target)
    ensures IsEnvironment(target) ==> status == SwitchRouteStatus(o)
    ensures status == 200 <==> IsEnvironment(target) && o.NoChange?
  {
    if IsEnvironment(target) then SwitchRouteStatus(o) else 422
  }

  // ---------------------------------------------------------------- key normalisation

  /** The key with one leading "0x" removed. */
  function Unprefixed(k: string): (r: string)
    ensures Text.StartsWith(k, "0x") ==> r == k[2..]
    ensures !Text.StartsWith(k, "0x") ==> r == k
  {
    if Text.StartsWith(k, "0x") then k[2..] else k
  }

  /** The key check of `configure_account_wallet`: strip, drop one "0x", demand 64 characters.
      The characters themselves are checked later, by the address derivation. */
  function NormalizeKey(raw: string): (r: Option<string>)
    ensures r.Some? ==> |r.value| == 64
    ensures r.Some? ==> Text.Strip(raw) == r.value || Text.Strip(raw) == "0x" + r.value
    ensures r.None? ==> |Unprefixed(Text.Strip(raw))| != 64
  {
    var k := Unprefixed(Text.Strip(raw));
    if |k| == 64 then Some(k) else None
  }

  /** A bare 64-character key is accepted as it is. */
  lemma NormalizeKeyBare(k: string)
    requires |k| == 64 && !Text.IsSpace(k[0]) && !Text.IsSpace(k[63]) && !Text.StartsWith(k, "0x")
    ensures NormalizeKey(k) == Some(k)
  {
    Text.StripUnpadded(k);
  }

  /** The same key with a leading "0x" normalises to the bare key. */
  lemma NormalizeKeyPrefixed(k: string)
    requires |k| == 64 && !Text.IsSpace(k[63])
    ensures NormalizeKey("0x" + k) == Some(k)
  {
    PrefixedKeyUnpadded(k);
    PrefixedKeyUnprefixed(k);
  }

  lemma PrefixedKeyUnpadded(k: string)
    requires |k| == 64 && !Text.IsSpace(k[63])
    ensures Text.Strip("0x" + k) == "0x" + k
  {
    var p := "0x" + k;
    assert p[0] == '0';
    assert p[|p| - 1] == k[63];
    Text.StripUnpadded(p);
  }

  lemma PrefixedKeyUnprefixed(k: string)
    ensures Unprefixed("0x" + k) == k
  {
    var p := "0x" + k;
    assert p[..2] == "0x";
    assert p[2..] == k;
  }

  // ---------------------------------------------------------------- wallet upsert

  datatype WalletRequest = WalletRequest(privateKey: string, maxLeverage: int, defaultLeverage: int, environment: string)

  datatype WalletSaved = WalletSaved(walletId: int, address: string, created: bool, requiresAuthorization: bool)

  /** No two wallets share an (account, environment) pair. */
  predicate UniquePairs(ws: seq<Wallet>) {
    forall i, j :: 0 <= i < j < |ws| ==> !(ws[i].accountId == ws[j].accountId && ws[i].environment == ws[j].environment)
  }

  /** The field constraints of WalletConfigRequest. */
  predicate WalletRequestWellFormed(req: WalletRequest) {
    64 <= |req.privateKey| <= 66 && 1 <= req.maxLeverage <= 50 && 1 <= req.defaultLeverage <= 50
  }

  /** The validation steps of `configure_account_wallet`, in the handler's order; on success the
      encrypted "0x"-prefixed key and the derived address. `deriveAddress` and `encrypt` return
      None when they raise. */
  function CheckWalletRequest(store: TradingStore, accountId: int, req: WalletRequest,
                              deriveAddress: string -> Option<string>, encrypt: string -> Option<string>)
    : (r: Result<(string, string), HttpError>)
    reads store
    ensures !WalletRequestWellFormed(req) ==> r == Err(HttpError(422, "Request validation failed"))
    ensures WalletRequestWellFormed(req) && !IsEnvironment(req.environment) ==> r.Err? && r.error.status == 400
    ensures (WalletRequestWellFormed(req) && IsEnvironment(req.environment) && !store.HasAccount(accountId))
      ==> r == Err(HttpError(404, AccountNotFoundText(accountId)))
    ensures (WalletRequestWellFormed(req) && IsEnvironment(req.environment) && store.HasAccount(accountId)
             && NormalizeKey(req.privateKey).None?) ==> r.Err? && r.error.status == 400
    ensures r.Ok? <==>
      WalletRequestWellFormed(req) && IsEnvironment(req.environment) && store.HasAccount(accountId)
      && NormalizeKey(req.privateKey).Some?
      && deriveAddress("0x" + NormalizeKey(req.privateKey).value).Some?
      && encrypt("0x" + NormalizeKey(req.privateKey).value).Some?
    ensures r.Ok? ==>
      r.value == (encrypt("0x" + NormalizeKey(req.privateKey).value).value, deriveAddress("0x" + NormalizeKey(req.privateKey).value).value)
  {
    if !WalletRequestWellFormed(req) then Err(HttpError(422, "Request validation failed"))
    else if !IsEnvironment(req.environment) then Err(HttpError(400, "Environment must be 'testnet' or 'mainnet'"))
    else if !store.HasAccount(accountId) then Err(HttpError(404, AccountNotFoundText(accountId)))
    else
      var bare := NormalizeKey(req.privateKey);
      if bare.None? then Err(HttpError(400, "Invalid private key format. Must be 64 hex characters (with or without 0x prefix)"))
      else
        var key := "0x" + bare.value;
        var address := deriveAddress(key);
        if address.None? then Err(HttpError(400, "Invalid private key"))
        else
          var encrypted := encrypt(key);
          if encrypted.None? then Err(HttpError(500, "Failed to encrypt private key"))
          else Ok((encrypted.value, address.value))
  }

  /** `configure_account_wallet`: the checks, then the upsert. `authorizationOk` is the outcome
      of the builder-fee check the handler makes for mainnet wallets. */
  method ConfigureAccountWallet(store: TradingStore, accountId: int, req: WalletRequest,
                                deriveAddress: string -> Option<string>, encrypt: string -> Option<string>,
                                authorizationOk: bool)
    returns (r: Result<WalletSaved, HttpError>)
    modifies store
    ensures store.accounts == old(store.accounts) && store.positions == old(store.positions)
    ensures store.tradingMode == old(store.tradingMode)
    ensures var check := old(CheckWalletRequest(store, accountId, req, deriveAddress, encrypt));
      && (check.Err? ==> r == Err(check.error) && store.wallets == old(store.wallets) && store.nextWalletId == old(store.nextWalletId))
      && (check.Ok? ==>
            && r.Ok?
            && r.value.address == check.value.1
            && r.value.requiresAuthorization == (req.environment == "mainnet" && !authorizationOk)
            && Saved(old(store.wallets), old(store.nextWalletId), store.wallets, store.nextWalletId,
                     Wallet(r.value.walletId, accountId, req.environment, check.value.0, check.value.1,
                            req.maxLeverage, req.defaultLeverage, Some("true")), r.value.created)
            // the saved wallet is the one the services read afterwards
            && store.LeverageSettings(accountId, req.environment) == Ok(Leverage(req.maxLeverage, req.defaultLeverage))
            && store.ClientKeyFor(accountId, Some(req.environment)) == Ok(ClientKey(req.environment, check.value.0, Some(check.value.1))))
    // the save never creates a second wallet for a pair
    ensures UniquePairs(old(store.wallets)) ==> UniquePairs(store.wallets)
  {
    var check := CheckWalletRequest(store, accountId, req, deriveAddress, encrypt);
    if check.Err? {
      return Err(check.error);
    }
    var (encrypted, address) := check.value;
    var requiresAuth := req.environment == "mainnet" && !authorizationOk;
    var walletId, created := SaveWallet(store, accountId, req.environment, encrypted, address,
                                        req.maxLeverage, req.defaultLeverage);
    r := Ok(WalletSaved(walletId, address, created, requiresAuth));
  }

  /** The wallet table after an upsert of `w`: the first wallet of its pair rewritten in place
      (keeping its id), or `w` appended under the next id. */
  ghost predicate Saved(before: seq<Wallet>, nextBefore: int, after: seq<Wallet>, nextAfter: int, w: Wallet, created: bool) {
    var i := FindWallet(before, w.accountId, w.environment);
    && created == i.None?
    && (i.Some? ==> after == before[i.value := w] && w.id == before[i.value].id && nextAfter == nextBefore)
    && (i.None? ==> after == before + [w] && w.id == nextBefore && nextAfter == nextBefore + 1)
  }

  /** The update-or-insert at the end of `configure_account_wallet`. */
  method SaveWallet(store: TradingStore, accountId: int, environment: string, encrypted: string, address: string,
                    maxLeverage: int, defaultLeverage: int)
    returns (walletId: int, created: bool)
    requires IsEnvironment(environment) && store.HasAccount(accountId)
    modifies store
    ensures store.accounts == old(store.accounts) && store.positions == old(store.positions)
    ensures store.tradingMode == old(store.tradingMode)
    ensures Saved(old(store.wallets), old(store.nextWalletId), store.wallets, store.nextWalletId,
                  Wallet(walletId, accountId, environment, encrypted, address, maxLeverage, defaultLeverage, Some("true")), created)
    ensures UniquePairs(old(store.wallets)) ==> UniquePairs(store.wallets)
    ensures store.LeverageSettings(accountId, environment) == Ok(Leverage(maxLeverage, defaultLeverage))
    ensures store.ClientKeyFor(accountId, Some(environment)) == Ok(ClientKey(environment, encrypted, Some(address)))
  {
    var i := FindWallet(store.wallets, accountId, environment);
    var slot: nat;
    if i.Some? {
      walletId, created := store.wallets[i.value].id, false;
      slot := i.value;
    } else {
      walletId, created := store.nextWalletId, true;
      slot := |store.wallets|;
    }
    var w := Wallet(walletId, accountId, environment, encrypted, address, maxLeverage, defaultLeverage, Some("true"));
    StoreWallet(store, slot, w);
    SavedWalletReadsBack(store, slot, accountId, environment);
  }

  /** Writes `w` over the wallet at `slot`, or appends it when `slot` is one past the end. */
  method StoreWallet(store: TradingStore, slot: nat, w: Wallet)
    requires slot <= |store.wallets|
    requires slot < |store.wallets| ==>
      FindWallet(store.wallets, w.accountId, w.environment) == Some(slot) && w.id == store.wallets[slot].id
    requires slot == |store.wallets| ==> FindWallet(store.wallets, w.accountId, w.environment).None? && w.id == store.nextWalletId
    modifies store
    ensures store.accounts == old(store.accounts) && store.positions == old(store.positions)
    ensures store.tradingMode == old(store.tradingMode)
    ensures slot < old(|store.wallets|) ==> store.wallets == old(store.wallets)[slot := w] && store.nextWalletId == old(store.nextWalletId)
    ensures slot == old(|store.wallets|) ==> store.wallets == old(store.wallets) + [w] && store.nextWalletId == old(store.nextWalletId) + 1
    ensures UniquePairs(old(store.wallets)) ==> UniquePairs(store.wallets)
  {
    if slot < |store.wallets| {
      WalletUpdateKeepsPairsUnique(store.wallets, slot, w);
      store.wallets := store.wallets[slot := w];
    } else {
      AppendKeepsPairsUnique(store.wallets, w);
      store.wallets := store.wallets + [w];
      store.nextWalletId := store.nextWalletId + 1;
    }
  }

  /** Appending a wallet for a pair that has none keeps the pairs unique. */
  lemma AppendKeepsPairsUnique(ws: seq<Wallet>, w: Wallet)
    requires FindWallet(ws, w.accountId, w.environment).None?
    ensures UniquePairs(ws) ==> UniquePairs(ws + [w])
  {
  }

  /** Rewriting a wallet in place with the same pair keeps the pairs unique. */
  lemma WalletUpdateKeepsPairsUnique(ws: seq<Wallet>, i: nat, w: Wallet)
    requires i < |ws| && w.accountId == ws[i].accountId && w.environment == ws[i].environment
    ensures UniquePairs(ws) ==> UniquePairs(ws[i := w])
  {
    var updated := ws[i := w];
    if UniquePairs(ws) {
      forall a, b | 0 <= a < b < |updated|
        ensures !(updated[a].accountId == updated[b].accountId && updated[a].environment == updated[b].environment)
      {
        assert updated[a].accountId == ws[a].accountId && updated[a].environment == ws[a].environment;
        assert updated[b].accountId == ws[b].accountId && updated[b].environment == ws[b].environment;
      }
    }
  }

  /** After the save, the leverage settings and the client key come from the saved wallet. */
  lemma SavedWalletReadsBack(store: TradingStore, i: nat, accountId: int, environment: string)
    requires IsEnvironment(environment) && store.HasAccount(accountId)
    requires i < |store.wallets| && store.wallets[i].accountId == accountId && store.wallets[i].environment == environment
    requires store.wallets[i].isActive == Some("true")
    requires forall j :: 0 <= j < i ==> !(store.wallets[j].accountId == accountId && store.wallets[j].environment == environment)
    ensures store.LeverageSettings(accountId, environment) ==
      Ok(Leverage(store.wallets[i].maxLeverage, store.wallets[i].defaultLeverage))
    ensures store.ClientKeyFor(accountId, Some(environment)) ==
      Ok(ClientKey(environment, store.wallets[i].keyEncrypted, Some(store.wallets[i].address)))
  {
    SavedWalletIsFound(store.wallets, i, accountId, environment);
  }

  /** An active wallet that is the first of its pair is what both lookups return. */
  lemma SavedWalletIsFound(ws: seq<Wallet>, i: nat, accountId: int, environment: string)
    requires i < |ws| && ws[i].accountId == accountId && ws[i].environment == environment && ws[i].isActive == Some("true")
    requires forall j :: 0 <= j < i ==> !(ws[j].accountId == accountId && ws[j].environment == environment)
    ensures FindWallet(ws, accountId, environment) == Some(i)
    ensures FindActiveWallet(ws, accountId, environment) == Some(i)
  {
    var f := FindWallet(ws, accountId, environment);
    var g := FindActiveWallet(ws, accountId, environment);
    assert f.Some? && f.value <= i;
    assert g.Some? && g.value <= i;
  }

  // ---------------------------------------------------------------- wallet delete

  /** The success answer of `delete_account_wallet`. */
  datatype WalletDeleted = WalletDeleted(accountId: int, accountName: string, environment: string, message: string)

  /** The message of the answer for the two environments the route admits. */
  function DeletedMessage(environment: string): string {
    (if environment == "testnet" then "Testnet" else "Mainnet") + " wallet deleted"
  }

  /** The message is `f'{environment.capitalize()} wallet deleted'`. */
  lemma DeletedMessageCapitalizes(environment: string)
    requires IsEnvironment(environment)
    ensures DeletedMessage(environment) == Text.Capitalize(environment) + " wallet deleted"
  {
    if environment == "testnet" {
      CapitalizedTestnet();
    } else {
      CapitalizedMainnet();
    }
  }

  lemma CapitalizedTestnet()
    ensures Text.Capitalize("testnet") == "Testnet"
  {
    Text.CapitalizeWord("testnet");
  }

  lemma CapitalizedMainnet()
    ensures Text.Capitalize("mainnet") == "Mainnet"
  {
    Text.CapitalizeWord("mainnet");
  }

  /** `delete_account_wallet`: removes the first wallet of the pair and nothing else. */
  method DeleteAccountWallet(store: TradingStore, accountId: int, environment: string)
    returns (r: Result<WalletDeleted, HttpError>)
    modifies store
    ensures store.accounts == old(store.accounts) && store.positions == old(store.positions)
    ensures store.tradingMode == old(store.tradingMode) && store.nextWalletId == old(store.nextWalletId)
    ensures r.Err? ==> store.wallets == old(store.wallets)
    ensures !IsEnvironment(environment) ==> r == Err(HttpError(422, "Request validation failed"))
    ensures IsEnvironment(environment) && !old(store.HasAccount(accountId))
      ==> r == Err(HttpError(404, AccountNotFoundText(accountId)))
    ensures (IsEnvironment(environment) && old(store.HasAccount(accountId))
             && FindWallet(old(store.wallets), accountId, environment).None?)
      ==> r == Err(HttpError(404, "No " + environment + " wallet configured for account " + Text.IntToString(accountId)))
    ensures r.Ok? <==>
      IsEnvironment(environment) && old(store.HasAccount(accountId))
      && FindWallet(old(store.wallets), accountId, environment).Some?
    ensures r.Ok? ==>
      var i := FindWallet(old(store.wallets), accountId, environment).value;
      && r.value == WalletDeleted(accountId, old(store.AccountOf(accountId)).name, environment,
                                  DeletedMessage(environment))
      && store.wallets == old(store.wallets)[..i] + old(store.wallets)[i + 1..]
    // every other wallet, the other environment's included, stays
    ensures forall w :: w in old(store.wallets) && !(w.accountId == accountId && w.environment == environment) ==> w in store.wallets
    ensures r.Ok? && UniquePairs(old(store.wallets)) ==>
      UniquePairs(store.wallets) && FindWallet(store.wallets, accountId, environment).None?
  {
    if !IsEnvironment(environment) {
      return Err(HttpError(422, "Request validation failed"));
    }
    if !store.HasAccount(accountId) {
      return Err(HttpError(404, AccountNotFoundText(accountId)));
    }
    var i := FindWallet(store.wallets, accountId, environment);
    if i.None? {
      return Err(HttpError(404, "No " + environment + " wallet configured for account " + Text.IntToString(accountId)));
    }
    var ws := store.wallets;
    var account := store.AccountOf(accountId);
    RemovalKeepsOthers(ws, i.value);
    store.wallets := ws[..i.value] + ws[i.value + 1..];
    r := Ok(WalletDeleted(accountId, account.name, environment, DeletedMessage(environment)));
  }

  lemma RemovalKeepsOthers(ws: seq<Wallet>, i: nat)
    requires i < |ws|
    ensures forall w :: w in ws && w != ws[i] ==> w in ws[..i] + ws[i + 1..]
    ensures UniquePairs(ws) ==> UniquePairs(ws[..i] + ws[i + 1..])
    ensures UniquePairs(ws) ==> forall w :: w in ws[..i] + ws[i + 1..] ==>
      !(w.accountId == ws[i].accountId && w.environment == ws[i].environment)
  {
    var rest := ws[..i] + ws[i + 1..];
    forall w | w in ws && w != ws[i] ensures w in rest {
      var k :| 0 <= k < |ws| && ws[k] == w;
      if k < i { assert rest[k] == w; } else { assert rest[k - 1] == w; }
    }
    if UniquePairs(ws) {
      forall a, b | 0 <= a < b < |rest|
        ensures !(rest[a].accountId == rest[b].accountId && rest[a].environment == rest[b].environment)
      {
        var a' := if a < i then a else a + 1;
        var b' := if b < i then b else b + 1;
        assert rest[a] == ws[a'] && rest[b] == ws[b'];
      }
      forall w | w in rest ensures !(w.accountId == ws[i].accountId && w.environment == ws[i].environment) {
        var k :| 0 <= k < |rest| && rest[k] == w;
        var k' := if k < i then k else k + 1;
        assert rest[k] == ws[k'] && k' != i;
      }
    }
  }

  // ---------------------------------------------------------------- trading mode

  datatype ModeChange = ModeChange(mode: string, changed: bool, oldMode: string)

  /** `get_trading_mode`'s description. */
  function ModeDescription(mode: string): string {
    if mode == "testnet" then "Testnet (paper trading)" else "Mainnet (real funds)"
  }

  /** `set_trading_mode`: a missing config counts as "testnet"; an unchanged mode writes nothing. */
  method SetTradingMode(store: TradingStore, mode: string) returns (r: Result<ModeChange, HttpError>)
    modifies store
    ensures store.accounts == old(store.accounts) && store.wallets == old(store.wallets)
    ensures store.positions == old(store.positions) && store.nextWalletId == old(store.nextWalletId)
    ensures r.Ok? <==> IsEnvironment(mode)
    ensures r.Ok? ==> r.value.oldMode == old(store.tradingMode).GetOr("testnet") && r.value.mode == mode
    ensures r.Ok? ==> (r.value.changed <==> old(store.tradingMode).GetOr("testnet") != mode)
    ensures !(r.Ok? && r.value.changed) ==> store.tradingMode == old(store.tradingMode)
    ensures r.Ok? && r.value.changed ==> store.tradingMode == Some(mode)
    ensures r.Ok? ==> store.GlobalMode() == mode
  {
    if !IsEnvironment(mode) {
      return Err(HttpError(422, "Request validation failed"));
    }
    var oldMode := if store.tradingMode.Some? then store.tradingMode.value else "testnet";
    if oldMode == mode {
      return Ok(ModeChange(mode, false, oldMode));
    }
    store.tradingMode := Some(mode);
    r := Ok(ModeChange(mode, true, oldMode));
  }

  // ---------------------------------------------------------------- manual order leverage guard

  datatype OrderRequest = OrderRequest(size: real, price: real, leverage: int, timeInForce: string,
                                       takeProfit: Option<real>, stopLoss: Option<real>, environment: Option<string>)

  /** What the handler goes on to place the order with. */
  datatype OrderPlan = OrderPlan(environment: string, key: ClientKey, maxLeverage: int)

  /** The field constraints of ManualOrderRequest. */
  predicate OrderRequestWellFormed(req: OrderRequest) {
    req.size > 0.0 && req.price > 0.0 && 1 <= req.leverage <= 50
    && req.timeInForce in {"Ioc", "Gtc", "Alo"}
    && (req.takeProfit.Some? ==> req.takeProfit.value > 0.0)
    && (req.stopLoss.Some? ==> req.stopLoss.value > 0.0)
  }

  /** The detail of the HTTPException(400) for too high a leverage. */
  function LeverageTooHigh(leverage: int, maxLeverage: int, environment: string): string {
    "Leverage " + Text.IntToString(leverage) + "x exceeds account maximum " + Text.IntToString(maxLeverage)
    + "x for " + environment + " environment"
  }

  /** The environment the order goes to and its leverage settings, once a key was found. */
  function OrderEnvironment(store: TradingStore, req: OrderRequest): string
    reads store
  {
    store.ClientEnvironment(req.environment)
  }

  /** An order the handler goes on to place: well formed, a key found, the leverage within the maximum. */
  predicate OrderPasses(store: TradingStore, accountId: int, req: OrderRequest)
    reads store
  {
    && OrderRequestWellFormed(req) && store.ClientKeyFor(accountId, req.environment).Ok?
    && store.LeverageSettings(accountId, OrderEnvironment(store, req)).Ok?
    && req.leverage <= store.LeverageSettings(accountId, OrderEnvironment(store, req)).value.maxLeverage
  }

  /** A well-formed order with a key whose leverage is above the maximum. */
  predicate OrderOverLeveraged(store: TradingStore, accountId: int, req: OrderRequest)
    reads store
  {
    && OrderRequestWellFormed(req) && store.ClientKeyFor(accountId, req.environment).Ok?
    && store.LeverageSettings(accountId, OrderEnvironment(store, req)).Ok?
    && req.leverage > store.LeverageSettings(accountId, OrderEnvironment(store, req)).value.maxLeverage
  }

  /** The plan of an order that passes the guards. */
  function PlanOf(store: TradingStore, accountId: int, req: OrderRequest): OrderPlan
    reads store
    requires OrderPasses(store, accountId, req)
  {
    OrderPlan(OrderEnvironment(store, req), store.ClientKeyFor(accountId, req.environment).value,
              store.LeverageSettings(accountId, OrderEnvironment(store, req)).value.maxLeverage)
  }

  /** The 400 for too high a leverage, for an order that has a key. */
  function LeverageRejection(store: TradingStore, accountId: int, req: OrderRequest): HttpError
    reads store
    requires OrderOverLeveraged(store, accountId, req)
  {
    HttpError(400, LeverageTooHigh(req.leverage, store.LeverageSettings(accountId, OrderEnvironment(store, req)).value.maxLeverage,
                                   OrderEnvironment(store, req)))
  }

  /** The checks of `place_manual_order` before the order is sent, as the handler runs them:
      the 400 it raises for too high a leverage is inside a `try` whose catch-all for anything
      but ValueError turns it into 500, with the exception's text `"400: " + detail`. */
  function ManualOrderAsWritten(store: TradingStore, accountId: int, req: OrderRequest): (r: Result<OrderPlan, HttpError>)
    reads store
    ensures !OrderRequestWellFormed(req) ==> r == Err(HttpError(422, "Request validation failed"))
    ensures OrderRequestWellFormed(req) && store.ClientKeyFor(accountId, req.environment).Err? ==>
      r == Err(HttpError(400, store.ClientKeyFor(accountId, req.environment).error))
    ensures OrderOverLeveraged(store, accountId, req) ==>
      r == Err(HttpError(500, "Order placement failed: 400: " + LeverageRejection(store, accountId, req).detail))
    ensures OrderPasses(store, accountId, req) ==> r == Ok(PlanOf(store, accountId, req))
    ensures r.Ok? ==> req.leverage <= r.value.maxLeverage
  {
    if !OrderRequestWellFormed(req) then Err(HttpError(422, "Request validation failed"))
    else
      match store.ClientKeyFor(accountId, req.environment)
      case Err(msg) => Err(HttpError(400, msg))
      case Ok(key) =>
        var environment := store.ClientEnvironment(req.environment);
        var leverage := store.LeverageSettings(accountId, environment);
        if req.leverage > leverage.value.maxLeverage then
          Err(HttpError(500, "Order placement failed: 400: " + LeverageTooHigh(req.leverage, leverage.value.maxLeverage, environment)))
        else Ok(OrderPlan(environment, key, leverage.value.maxLeverage))
  }

  /** The same checks with the leverage rejection answered as the 400 the handler raises. */
  function ManualOrderCorrected(store: TradingStore, accountId: int, req: OrderRequest): (r: Result<OrderPlan, HttpError>)
    reads store
    ensures !OrderRequestWellFormed(req) ==> r == Err(HttpError(422, "Request validation failed"))
    ensures OrderRequestWellFormed(req) && store.ClientKeyFor(accountId, req.environment).Err? ==>
      r == Err(HttpError(400, store.ClientKeyFor(accountId, req.environment).error))
    ensures r.Ok? ==>
      && store.ClientKeyFor(accountId, req.environment).Ok?
      && r.value.environment == store.ClientEnvironment(req.environment)
      && store.LeverageSettings(accountId, r.value.environment) == Ok(Leverage(r.value.maxLeverage, store.LeverageSettings(accountId, r.value.environment).value.defaultLeverage))
      && req.leverage <= r.value.maxLeverage
    // a leverage above the environment's maximum is refused with 400
    ensures OrderOverLeveraged(store, accountId, req) ==> r == Err(LeverageRejection(store, accountId, req))
    // an order passing every guard goes on to be placed
    ensures OrderPasses(store, accountId, req) ==> r == Ok(PlanOf(store, accountId, req))
  {
    if !OrderRequestWellFormed(req) then Err(HttpError(422, "Request validation failed"))
    else
      match store.ClientKeyFor(accountId, req.environment)
      case Err(msg) => Err(HttpError(400, msg))
      case Ok(key) =>
        var environment := store.ClientEnvironment(req.environment);
        var leverage := store.LeverageSettings(accountId, environment);
        if req.leverage > leverage.value.maxLeverage then
          Err(HttpError(400, LeverageTooHigh(req.leverage, leverage.value.maxLeverage, environment)))
        else Ok(OrderPlan(environment, key, leverage.value.maxLeverage))
  }

  /** The discrepancy: a request whose leverage is above the maximum gets 500 from the
      handler as written, where the code means to answer 400. */
  lemma ManualOrderLeverageAnswers500(store: TradingStore, accountId: int, req: OrderRequest)
    requires OrderRequestWellFormed(req) && store.ClientKeyFor(accountId, req.environment).Ok?
    requires req.leverage > store.LeverageSettings(accountId, store.ClientEnvironment(req.environment)).value.maxLeverage
    ensures ManualOrderAsWritten(store, accountId, req).Err? && ManualOrderAsWritten(store, accountId, req).error.status == 500
    ensures ManualOrderCorrected(store, accountId, req).Err? && ManualOrderCorrected(store, accountId, req).error.status == 400
    ensures ManualOrderAsWritten(store, accountId, req).error.detail
            == "Order placement failed: 400: " + ManualOrderCorrected(store, accountId, req).error.detail
  {
  }

  lemma ManualOrderVersionsAgreeOtherwise(store: TradingStore, accountId: int, req: OrderRequest)
    requires !(OrderRequestWellFormed(req) && store.ClientKeyFor(accountId, req.environment).Ok?
               && req.leverage > store.LeverageSettings(accountId, store.ClientEnvironment(req.environment)).value.maxLeverage)
    ensures ManualOrderAsWritten(store, accountId, req) == ManualOrderCorrected(store, accountId, req)
  {
  }

  // ---------------------------------------------------------------- wallet overview

  datatype WalletView = WalletView(id: int, address: string, maxLeverage: int, defaultLeverage: int, isActive: bool)

  datatype WalletOverview = WalletOverview(configured: bool, testnet: Option<WalletView>, mainnet: Option<WalletView>, mode: string)

  function ViewOf(w: Wallet): WalletView {
    WalletView(w.id, w.address, w.maxLeverage, w.defaultLeverage, w.isActive == Some("true"))
  }

  /** The last wallet of the account for an environment (the loop keeps overwriting). */
  function LastWallet(ws: seq<Wallet>, accountId: int, environment: string): (r: Option<Wallet>)
    ensures r.Some? ==> r.value in ws && r.value.accountId == accountId && r.value.environment == environment
    ensures r.None? <==> forall w :: w in ws ==> !(w.accountId == accountId && w.environment == environment)
    ensures var i := LastWhere(ws, OfWalletPair(accountId, environment));
            (r.Some? <==> i.Some?) && (r.Some? ==> r.value == ws[i.value])
    decreases |ws|
  {
    if ws == [] then None
    else
      var last := ws[|ws| - 1];
      assert forall w :: w in ws ==> w == last || w in ws[..|ws| - 1];
      if last.accountId == accountId && last.environment == environment then Some(last)
      else LastWallet(ws[..|ws| - 1], accountId, environment)
  }

  /** The test of the wallet loop: the wallet of this account in this environment. */
  function OfWalletPair(accountId: int, environment: string): Wallet -> bool {
    (w: Wallet) => w.accountId == accountId && w.environment == environment
  }

  /** The view of the last wallet of the pair, if any. */
  function LatestView(ws: seq<Wallet>, accountId: int, environment: string): Option<WalletView> {
    var w := LastWallet(ws, accountId, environment);
    if w.Some? then Some(ViewOf(w.value)) else None
  }

  /** The loop of `get_account_wallet`: a later wallet of an environment overwrites an earlier one. */
  method LatestWallets(ws: seq<Wallet>, accountId: int) returns (testnet: Option<WalletView>, mainnet: Option<WalletView>)
    ensures testnet == LatestView(ws, accountId, "testnet")
    ensures mainnet == LatestView(ws, accountId, "mainnet")
  {
    testnet, mainnet := None, None;
    for i := 0 to |ws|
      invariant testnet == LatestView(ws[..i], accountId, "testnet")
      invariant mainnet == LatestView(ws[..i], accountId, "mainnet")
    {
      assert ws[..i + 1][..i] == ws[..i];
      if ws[i].accountId == accountId {
        if ws[i].environment == "testnet" {
          testnet := Some(ViewOf(ws[i]));
        } else if ws[i].environment == "mainnet" {
          mainnet := Some(ViewOf(ws[i]));
        }
      }
    }
    assert ws[..|ws|] == ws;
  }

  /** `get_account_wallet` without the balances. */
  method GetAccountWallet(store: TradingStore, accountId: int) returns (r: Result<WalletOverview, HttpError>)
    ensures r.Ok? <==> store.HasAccount(accountId)
    ensures r.Err? ==> r == Err(HttpError(404, AccountNotFoundText(accountId)))
    ensures r.Ok? ==> r.value.testnet == LatestView(store.wallets, accountId, "testnet")
    ensures r.Ok? ==> r.value.mainnet == LatestView(store.wallets, accountId, "mainnet")
    ensures r.Ok? ==> (r.value.configured <==>
      exists w :: w in store.wallets && w.accountId == accountId && IsEnvironment(w.environment))
    ensures r.Ok? ==> r.value.mode == store.GlobalMode()
  {
    if !store.HasAccount(accountId) {
      return Err(HttpError(404, AccountNotFoundText(accountId)));
    }
    var testnet, mainnet := LatestWallets(store.wallets, accountId);
    ghost var lt := LastWallet(store.wallets, accountId, "testnet");
    ghost var lm := LastWallet(store.wallets, accountId, "mainnet");
    assert (exists w :: w in store.wallets && w.accountId == accountId && IsEnvironment(w.environment)) ==> lt.Some? || lm.Some?;
    r := Ok(WalletOverview(testnet.Some? || mainnet.Some?, testnet, mainnet, store.GlobalMode()));
  }

  // ---------------------------------------------------------------- action summary

  /** One grouped row of the exchange-action summary query. */
  datatype ActionRow = ActionRow(actionType: string, count: nat, errors: Option<int>, lastTs: Option<int>)

  /** `sum(row.count for row in rows)` */
  function TotalActions(rows: seq<ActionRow>): (t: nat)
    ensures t == 0 <==> forall i :: 0 <= i < |rows| ==> rows[i].count == 0
    ensures forall i :: 0 <= i < |rows| ==> rows[i].count <= t
    decreases |rows|
  {
    if rows == [] then 0 else rows[0].count + TotalActions(rows[1..])
  }

  lemma {:induction false} TotalActionsAppend(a: seq<ActionRow>, b: seq<ActionRow>)
    ensures TotalActions(a + b) == TotalActions(a) + TotalActions(b)
    decreases |a|
  {
    if a != [] {
      assert (a + b)[1..] == a[1..] + b;
      TotalActionsAppend(a[1..], b);
    } else {
      assert a + b == b;
    }
  }

  /** `max((row.last_ts for row in rows if row.last_ts), default=None)` */
  function LatestEvent(rows: seq<ActionRow>): (r: Option<int>)
    ensures r.None? <==> forall i :: 0 <= i < |rows| ==> rows[i].lastTs.None?
    ensures r.Some? ==> exists i :: 0 <= i < |rows| && rows[i].lastTs == r
    ensures r.Some? ==> forall i :: 0 <= i < |rows| && rows[i].lastTs.Some? ==> rows[i].lastTs.value <= r.value
    decreases |rows|
  {
    if rows == [] then None
    else
      var rest := LatestEvent(rows[1..]);
      assert forall i :: 1 <= i < |rows| ==> rows[i] == rows[1..][i - 1];
      var here := rows[0].lastTs;
      if here.None? then
        (if rest.Some? then (var k :| 0 <= k < |rows[1..]| && rows[1..][k].lastTs == rest; assert rows[k + 1].lastTs == rest; rest) else rest)
      else if rest.None? || rest.value < here.value then here
      else
        var k :| 0 <= k < |rows[1..]| && rows[1..][k].lastTs == rest;
        assert rows[k + 1].lastTs == rest;
        rest
  }

  /** `int(row.errors or 0)` */
  function ErrorCount(row: ActionRow): int {
    if row.errors.Some? then row.errors.value else 0
  }

  // ---------------------------------------------------------------- snapshots

  datatype Snapshot = Snapshot(accountId: int, environment: string, createdAt: int, totalEquity: real)

  datatype SnapshotHistory = SnapshotHistory(environment: string, count: nat, snapshots: seq<Snapshot>)

  /** `get_account_snapshots`. `newestFirst` holds the account's snapshots in the order of the
      query (created_at descending); the handler keeps `limit` of them and reverses them. */
  method GetAccountSnapshots(store: TradingStore, accountId: int, limit: int, newestFirst: seq<Snapshot>)
    returns (r: Result<SnapshotHistory, HttpError>)
    ensures !(1 <= limit <= 1000) ==> r == Err(HttpError(422, "Request validation failed"))
    ensures 1 <= limit <= 1000 && !store.HasAccount(accountId) ==> r == Err(HttpError(404, "Account not found"))
    ensures (1 <= limit <= 1000 && store.HasAccount(accountId) && !Truthy(store.AccountOf(accountId).environment))
      ==> r.Err? && r.error.status == 400
    ensures r.Ok? <==> 1 <= limit <= 1000 && store.HasAccount(accountId) && Truthy(store.AccountOf(accountId).environment)
    ensures r.Ok? ==>
      var n := if limit < |newestFirst| then limit else |newestFirst|;
      && r.value.count == |r.value.snapshots| == n
      && r.value.environment == store.AccountOf(accountId).environment.value
      && forall i :: 0 <= i < n ==> r.value.snapshots[i] == newestFirst[n - 1 - i]
    // newest-first input comes out oldest first
    ensures r.Ok? && (forall i, j :: 0 <= i < j < |newestFirst| ==> newestFirst[i].createdAt >= newestFirst[j].createdAt) ==>
      forall i, j :: 0 <= i < j < |r.value.snapshots| ==> r.value.snapshots[i].createdAt <= r.value.snapshots[j].createdAt
  {
    if limit < 1 || limit > 1000 {
      return Err(HttpError(422, "Request validation failed"));
    }
    if !store.HasAccount(accountId) {
      return Err(HttpError(404, "Account not found"));
    }
    var environment := store.AccountOf(accountId).environment;
    if !Truthy(environment) {
      return Err(HttpError(400, "Hyperliquid environment is not configured for this account"));
    }
    var n := if limit < |newestFirst| then limit else |newestFirst|;
    var result: seq<Snapshot> := [];
    var i := n;
    while i > 0
      invariant 0 <= i <= n
      invariant |result| == n - i
      invariant forall j :: 0 <= j < |result| ==> result[j] == newestFirst[n - 1 - j]
    {
      i := i - 1;
      result := result + [newestFirst[i]];
    }
    r := Ok(SnapshotHistory(environment.value, |result|, result));
  }
}
