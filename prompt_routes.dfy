/** The prompt handlers of backend/api/prompt_routes.py: the preview of a filled prompt for
    a list of accounts, the account/template binding and the premium gate on conversation
    history. Accounts come from the same `TradingStore` as the environment service; the
    prompt-context builder, the price feed and the exchange client are function parameters. */
module PromptRoutes {
  import opened Wrappers
  import opened Seqs
  import opened HyperliquidEnvironment
  import Text

  // ---------------------------------------------------------------- requested symbols

  /** `[str(sym).upper() for sym in symbols if sym]`; a falsy symbol is the empty string. */
  function RawSymbols(symbols: seq<string>): (r: seq<string>)
    ensures |r| <= |symbols|
    ensures forall i :: 0 <= i < |r| ==> r[i] != ""
    ensures forall i :: 0 <= i < |symbols| && symbols[i] != "" ==> Text.Upper(symbols[i]) in r
    ensures var kept := Filter(symbols, (x: string) => x != "");
            |r| == |kept| && forall i :: 0 <= i < |r| ==> r[i] == Text.Upper(kept[i])
    decreases |symbols|
  {
    if symbols == [] then []
    else
      var rest := RawSymbols(symbols[1..]);
      assert forall i :: 1 <= i < |symbols| ==> symbols[i] == symbols[1..][i - 1];
      assert symbols == [symbols[0]] + symbols[1..];
      FilterCons(symbols[0], symbols[1..], (x: string) => x != "");
      (if symbols[0] != "" then [Text.Upper(symbols[0])] else []) + rest
  }

  /** Every raw symbol is the upper-cased form of a non-empty input. */
  lemma {:induction false} RawSymbolsFromInput(symbols: seq<string>, x: string)
    requires x in RawSymbols(symbols)
    ensures exists i :: 0 <= i < |symbols| && symbols[i] != "" && x == Text.Upper(symbols[i])
    decreases |symbols|
  {
    if symbols[0] != "" && x == Text.Upper(symbols[0]) {
    } else {
      assert x in RawSymbols(symbols[1..]);
      RawSymbolsFromInput(symbols[1..], x);
      var i :| 0 <= i < |symbols[1..]| && symbols[1..][i] != "" && x == Text.Upper(symbols[1..][i]);
      assert symbols[i + 1] == symbols[1..][i];
    }
  }

  predicate Distinct(s: seq<string>) {
    forall i, j :: 0 <= i < j < |s| ==> s[i] != s[j]
  }

  /** What the `seen_requested` loop keeps: each symbol once, in order of its first occurrence. */
  function Dedup(s: seq<string>): (r: seq<string>)
    ensures |r| <= |s|
    ensures forall x :: x in r <==> x in s
    ensures Distinct(r)
    decreases |s|
  {
    if s == [] then []
    else
      var init := Dedup(s[..|s| - 1]);
      var last := s[|s| - 1];
      assert s == s[..|s| - 1] + [last];
      if last in init then init else init + [last]
  }

  /** The position of the first occurrence of `x`. */
  function IndexOf(s: seq<string>, x: string): (k: nat)
    requires x in s
    ensures k < |s| && s[k] == x && x !in s[..k]
  {
    if s[0] == x then 0
    else
      var k := 1 + IndexOf(s[1..], x);
      assert s[..k] == [s[0]] + s[1..][..k - 1];
      k
  }

  lemma IndexOfUnique(s: seq<string>, x: string, k: nat)
    requires k < |s| && s[k] == x && x !in s[..k]
    ensures IndexOf(s, x) == k
  {
    var m := IndexOf(s, x);
  }

  /** Appending never moves the first occurrence of something already present. */
  lemma IndexOfAppend(p: seq<string>, y: string, x: string)
    requires x in p
    ensures IndexOf(p + [y], x) == IndexOf(p, x)
  {
    var k := IndexOf(p, x);
    assert (p + [y])[..k] == p[..k];
    IndexOfUnique(p + [y], x, k);
  }

  /** The kept symbols appear in the order in which they first occur in the input. */
  lemma {:induction false} DedupKeepsFirstOccurrenceOrder(s: seq<string>)
    ensures forall i, j :: 0 <= i < j < |Dedup(s)| ==> IndexOf(s, Dedup(s)[i]) < IndexOf(s, Dedup(s)[j])
    decreases |s|
  {
    if s != [] {
      var p := s[..|s| - 1];
      var last := s[|s| - 1];
      assert s == p + [last];
      DedupKeepsFirstOccurrenceOrder(p);
      var init := Dedup(p);
      var r := Dedup(s);
      forall i, j | 0 <= i < j < |r|
        ensures IndexOf(s, r[i]) < IndexOf(s, r[j])
      {
        assert r[i] == init[i];
        IndexOfAppend(p, last, r[i]);
        if j < |init| {
          assert r[j] == init[j];
          IndexOfAppend(p, last, r[j]);
        } else {
          assert r[j] == last && last !in p;
          IndexOfUnique(s, last, |p|);
        }
      }
    }
  }

  /** The requested symbols of `preview_prompt`: the raw symbols, de-duplicated. */
  method RequestedSymbols(symbols: seq<string>) returns (requested: seq<string>)
    ensures requested == Dedup(RawSymbols(symbols))
  {
    var raw := RawSymbols(symbols);
    requested := KeepFirstOccurrences(raw);
  }

  /** The `seen_requested` loop: a truthy symbol not seen before is kept. Over symbols that
      are all non-empty, as the raw symbols are, it computes `Dedup`. */
  method KeepFirstOccurrences(raw: seq<string>) returns (requested: seq<string>)
    ensures (forall k :: 0 <= k < |raw| ==> raw[k] != "") ==> requested == Dedup(raw)
    ensures forall x :: x in requested ==> x in raw && x != ""
  {
    ghost var clean := forall k :: 0 <= k < |raw| ==> raw[k] != "";
    requested := [];
    var seen: set<string> := {};
    for i := 0 to |raw|
      invariant clean ==> requested == Dedup(raw[..i])
      invariant forall x :: x in seen <==> x in requested
      invariant forall x :: x in requested ==> x in raw[..i] && x != ""
    {
      assert raw[..i + 1][..i] == raw[..i];
      if raw[i] != "" && raw[i] !in seen {
        seen := seen + {raw[i]};
        requested := requested + [raw[i]];
      }
    }
    assert raw[..|raw|] == raw;
  }

  // ---------------------------------------------------------------- the template and the symbols

  const DEFAULT_TEMPLATE_KEY := "default"

  /** The `promptTemplateKey` field of a preview request: missing, an explicit null, or a key. */
  datatype KeyField = KeyAbsent | KeyNull | KeyGiven(key: string)

  /** The key as `payload.get("promptTemplateKey", "default")` yields it and the 404 detail
      prints it: the default when missing, "None" for an explicit null. */
  function KeyText(f: KeyField): string {
    match f
    case KeyAbsent => DEFAULT_TEMPLATE_KEY
    case KeyNull => "None"
    case KeyGiven(k) => k
  }

  /** The template text of a preview: a truthy `templateText` wins; otherwise the template
      stored under the requested key (by default "default"), and 404 when there is none.
      The stored templates are keyed by strings, so a null key finds none. */
  function TemplateFor(templateText: Option<string>, key: KeyField, templates: map<string, string>)
    : (r: Result<string, HttpError>)
    ensures Truthy(templateText) ==> r == Ok(templateText.value)
    ensures (!Truthy(templateText) && key.KeyNull?) ==> r == Err(HttpError(404, "Prompt template 'None' not found"))
    ensures (!Truthy(templateText) && !key.KeyNull?) ==>
      (r.Ok? <==> KeyText(key) in templates)
      && (r.Ok? ==> r.value == templates[KeyText(key)])
      && (r.Err? ==> r.error == HttpError(404, "Prompt template '" + KeyText(key) + "' not found"))
    ensures (!Truthy(templateText) && key.KeyAbsent? && DEFAULT_TEMPLATE_KEY in templates)
              ==> r == Ok(templates[DEFAULT_TEMPLATE_KEY])
  {
    if Truthy(templateText) then Ok(templateText.value)
    else if key.KeyNull? then Err(HttpError(404, "Prompt template 'None' not found"))
    else
      var k := KeyText(key);
      if k in templates then Ok(templates[k])
      else Err(HttpError(404, "Prompt template '" + k + "' not found"))
  }

  /** An explicit null key is not the default: with a "default" template stored, leaving the
      key out finds it, while a null key answers 404. */
  lemma NullKeyIsNotDefault(templates: map<string, string>)
    requires DEFAULT_TEMPLATE_KEY in templates
    ensures TemplateFor(None, KeyAbsent, templates) == Ok(templates[DEFAULT_TEMPLATE_KEY])
    ensures TemplateFor(None, KeyNull, templates).Err? && TemplateFor(None, KeyNull, templates).error.status == 404
  {
  }

  /** The symbols a preview covers: the requested ones, else (for the Hyperliquid modes) the
      watchlist, else the base order. */
  function ActiveSymbols(mode: string, requested: seq<string>, watchlist: seq<string>, base: seq<string>): (r: seq<string>)
    ensures IsEnvironment(mode) ==> r == (if requested != [] then requested else if watchlist != [] then watchlist else base)
    ensures !IsEnvironment(mode) ==> r == (if requested != [] then requested else base)
  {
    var first := if IsEnvironment(mode) then
                   (if requested != [] then requested else if watchlist != [] then watchlist else base)
                 else (if requested != [] then requested else base);
    if first == [] then base else first
  }

  /** The global mode is always a Hyperliquid environment, so the paper-trading branch of
      the preview never runs and the watchlist is always a fallback. */
  lemma PreviewUsesWatchlist(store: TradingStore, watchlist: seq<string>, base: seq<string>)
    requires watchlist != []
    ensures ActiveSymbols(store.GlobalMode(), [], watchlist, base) == watchlist
  {
  }

  /** The price loop: every active symbol gets a price, and one whose fetch fails gets 0.0. */
  method FetchPrices(active: seq<string>, environment: string, getPrice: (string, string) -> Option<real>)
    returns (prices: map<string, real>)
    ensures forall s :: s in prices <==> s in active
    ensures forall s :: s in prices ==> prices[s] == getPrice(s, environment).GetOr(0.0)
  {
    prices := map[];
    for i := 0 to |active|
      invariant forall s :: s in prices <==> s in active[..i]
      invariant forall s :: s in prices ==> prices[s] == getPrice(s, environment).GetOr(0.0)
    {
      assert active[..i + 1] == active[..i] + [active[i]];
      var p := getPrice(active[i], environment);
      if p.Some? {
        prices := prices[active[i] := p.value];
      } else {
        prices := prices[active[i] := 0.0];
      }
    }
    assert active[..|active|] == active;
  }

  // ---------------------------------------------------------------- the preview

  datatype PreviewRequest = PreviewRequest(
    templateText: Option<string>, promptTemplateKey: KeyField,
    accountIds: seq<int>, symbols: seq<string>)

  datatype Preview = Preview(accountId: int, accountName: string, symbols: seq<string>, filledPrompt: string)

  /** Everything a preview reads besides the accounts: the feeds and the context builder.
      `stateError(id, environment)` is the text of the exception the Hyperliquid state fetch
      raises for that account, None when the fetch succeeds. */
  datatype PreviewSources = PreviewSources(
    watchlist: seq<string>, base: seq<string>,
    getPrice: (string, string) -> Option<real>,
    stateError: (int, string) -> Option<string>,
    fill: (Account, string, seq<string>, map<string, real>) -> string)

  function PricesOf(active: seq<string>, environment: string, getPrice: (string, string) -> Option<real>)
    : (prices: map<string, real>)
    ensures forall s :: s in prices <==> s in active
    ensures forall s :: s in prices ==> prices[s] == getPrice(s, environment).GetOr(0.0)
  {
    map s | s in active :: getPrice(s, environment).GetOr(0.0)
  }

  /** The environment the price feed is asked for: `mode or "mainnet"`. */
  function PriceEnvironment(mode: string): string {
    if mode != "" then mode else "mainnet"
  }

  function PreviewOf(a: Account, mode: string, template: string, requested: seq<string>, src: PreviewSources): Preview {
    var active := ActiveSymbols(mode, requested, src.watchlist, src.base);
    var prices := PricesOf(active, PriceEnvironment(mode), src.getPrice);
    Preview(a.id, a.name, requested, src.fill(a, template, active, prices))
  }

  /** The 502 answer of a failed Hyperliquid state fetch, carrying the exception's text. */
  function FetchFailed(mode: string, error: string): HttpError {
    HttpError(502, "Failed to fetch Hyperliquid " + mode + " data: " + error)
  }

  /** The previews for `ids` in order: an unknown id is skipped, and a known account whose
      Hyperliquid state cannot be fetched fails the whole request with 502. */
  function Previews(accounts: seq<Account>, ids: seq<int>, mode: string, template: string,
                    requested: seq<string>, src: PreviewSources): Result<seq<Preview>, HttpError>
    decreases |ids|
  {
    if ids == [] then Ok([])
    else
      var init := Previews(accounts, ids[..|ids| - 1], mode, template, requested, src);
      var id := ids[|ids| - 1];
      var found := FindAccount(accounts, id);
      if init.Err? then init
      else if found.None? then init
      else if IsEnvironment(mode) && src.stateError(id, mode).Some? then
        Err(FetchFailed(mode, src.stateError(id, mode).value))
      else Ok(init.value + [PreviewOf(accounts[found.value], mode, template, requested, src)])
  }

  /** An error in a prefix of the ids is the error of the whole list. */
  lemma {:induction false} PreviewsErrorSticks(accounts: seq<Account>, ids: seq<int>, k: nat, mode: string, template: string,
                                               requested: seq<string>, src: PreviewSources)
    requires k <= |ids|
    requires Previews(accounts, ids[..k], mode, template, requested, src).Err?
    ensures Previews(accounts, ids, mode, template, requested, src) == Previews(accounts, ids[..k], mode, template, requested, src)
    decreases |ids| - k
  {
    if k < |ids| {
      var p := ids[..|ids| - 1];
      assert p[..k] == ids[..k];
      PreviewsErrorSticks(accounts, p, k, mode, template, requested, src);
    } else {
      assert ids[..k] == ids;
    }
  }

  function KnownIn(accounts: seq<Account>): int -> bool {
    id => FindAccount(accounts, id).Some?
  }

  /** A successful preview has one entry per known account id, in input order, each for
      the requested symbols. */
  lemma {:induction false} PreviewsFollowKnownIds(accounts: seq<Account>, ids: seq<int>, mode: string, template: string,
                                                  requested: seq<string>, src: PreviewSources)
    requires Previews(accounts, ids, mode, template, requested, src).Ok?
    ensures var ps := Previews(accounts, ids, mode, template, requested, src).value;
            var known := Filter(ids, KnownIn(accounts));
            |ps| == |known| && forall k :: 0 <= k < |ps| ==> ps[k].accountId == known[k] && ps[k].symbols == requested
    decreases |ids|
  {
    if ids != [] {
      var p := ids[..|ids| - 1];
      var id := ids[|ids| - 1];
      var known := KnownIn(accounts);
      assert ids == p + [id];
      FilterAppend(p, [id], known);
      FilterCons(id, [], known);
      assert [id] + [] == [id];
      var init := Previews(accounts, p, mode, template, requested, src);
      assert init.Ok?;
      PreviewsFollowKnownIds(accounts, p, mode, template, requested, src);
      var ps := Previews(accounts, ids, mode, template, requested, src).value;
      var found := FindAccount(accounts, id);
      if found.None? {
        assert ps == init.value;
        assert Filter(ids, known) == Filter(p, known);
      } else {
        var last := PreviewOf(accounts[found.value], mode, template, requested, src);
        assert ps == init.value + [last];
        assert Filter(ids, known) == Filter(p, known) + [id];
        assert last.accountId == id && last.symbols == requested;
        forall k | 0 <= k < |ps| ensures ps[k].accountId == Filter(ids, known)[k] && ps[k].symbols == requested {
          if k < |init.value| {
            assert ps[k] == init.value[k];
          }
        }
      }
    }
  }

  /** A preview fails only for a known account whose exchange state could not be fetched. */
  lemma {:induction false} PreviewFailsOnlyForKnownAccount(accounts: seq<Account>, ids: seq<int>, mode: string, template: string,
                                                           requested: seq<string>, src: PreviewSources)
    requires Previews(accounts, ids, mode, template, requested, src).Err?
    ensures Previews(accounts, ids, mode, template, requested, src).error.status == 502
    ensures exists i :: 0 <= i < |ids| && FindAccount(accounts, ids[i]).Some? && src.stateError(ids[i], mode).Some?
                        && Previews(accounts, ids, mode, template, requested, src).error
                           == FetchFailed(mode, src.stateError(ids[i], mode).value)
    decreases |ids|
  {
    var p := ids[..|ids| - 1];
    var id := ids[|ids| - 1];
    if Previews(accounts, p, mode, template, requested, src).Err? {
      PreviewFailsOnlyForKnownAccount(accounts, p, mode, template, requested, src);
      var i :| 0 <= i < |p| && FindAccount(accounts, p[i]).Some? && src.stateError(p[i], mode).Some?
               && Previews(accounts, p, mode, template, requested, src).error
                  == FetchFailed(mode, src.stateError(p[i], mode).value);
      assert ids[i] == p[i];
    } else {
      assert FindAccount(accounts, ids[|ids| - 1]).Some? && src.stateError(ids[|ids| - 1], mode).Some?;
    }
  }

  /** `preview_prompt`: 400 for no accounts, then the template lookup, then one preview per
      known account under the global trading mode. */
  method PreviewPrompt(store: TradingStore, req: PreviewRequest, templates: map<string, string>, src: PreviewSources)
    returns (r: Result<seq<Preview>, HttpError>)
    ensures req.accountIds == [] ==> r == Err(HttpError(400, "At least one account must be selected"))
    ensures (req.accountIds != [] && TemplateFor(req.templateText, req.promptTemplateKey, templates).Err?)
              ==> r == Err(TemplateFor(req.templateText, req.promptTemplateKey, templates).error)
    ensures (req.accountIds != [] && TemplateFor(req.templateText, req.promptTemplateKey, templates).Ok?)
              ==> r == Previews(store.accounts, req.accountIds, store.GlobalMode(),
                                TemplateFor(req.templateText, req.promptTemplateKey, templates).value,
                                Dedup(RawSymbols(req.symbols)), src)
  {
    var requested := RequestedSymbols(req.symbols);
    if |req.accountIds| == 0 {
      return Err(HttpError(400, "At least one account must be selected"));
    }
    var template := TemplateFor(req.templateText, req.promptTemplateKey, templates);
    if template.Err? {
      return Err(template.error);
    }
    r := PreviewAccounts(store, req.accountIds, template.value, requested, src);
  }

  /** The account loop of `preview_prompt`. */
  method PreviewAccounts(store: TradingStore, ids: seq<int>, template: string, requested: seq<string>, src: PreviewSources)
    returns (r: Result<seq<Preview>, HttpError>)
    ensures r == Previews(store.accounts, ids, store.GlobalMode(), template, requested, src)
  {
    var mode := store.GlobalMode();
    var previews: seq<Preview> := [];
    for i := 0 to |ids|
      invariant Previews(store.accounts, ids[..i], mode, template, requested, src) == Ok(previews)
    {
      assert ids[..i + 1][..i] == ids[..i];
      var found := FindAccount(store.accounts, ids[i]);
      if found.None? {
        continue;
      }
      if IsEnvironment(mode) && src.stateError(ids[i], mode).Some? {
        r := Err(FetchFailed(mode, src.stateError(ids[i], mode).value));
        assert Previews(store.accounts, ids[..i + 1], mode, template, requested, src) == r;
        PreviewsErrorSticks(store.accounts, ids, i + 1, mode, template, requested, src);
        return;
      }
      var a := store.accounts[found.value];
      var active := ActiveSymbols(mode, requested, src.watchlist, src.base);
      var prices := FetchPrices(active, PriceEnvironment(mode), src.getPrice);
      assert prices == PricesOf(active, PriceEnvironment(mode), src.getPrice);
      previews := previews + [Preview(a.id, a.name, requested, src.fill(a, template, active, prices))];
    }
    assert ids[..|ids|] == ids;
    r := Ok(previews);
  }

  // ---------------------------------------------------------------- bindings

  datatype BindingRequest = BindingRequest(accountId: Option<int>, promptTemplateId: Option<int>)

  /** A falsy id: missing, null or 0. */
  predicate Given(id: Option<int>) {
    id.Some? && id.value != 0
  }

  /** `upsert_prompt_binding`: the account id is checked first, then the template id, then
      the account row, then the template row; on success the account is bound to the template. */
  function UpsertBinding(req: BindingRequest, accounts: seq<Account>, templateIds: set<int>, bindings: map<int, int>)
    : (r: Result<map<int, int>, HttpError>)
    ensures !Given(req.accountId) ==> r == Err(HttpError(400, "accountId is required"))
    ensures Given(req.accountId) && !Given(req.promptTemplateId) ==> r == Err(HttpError(400, "promptTemplateId is required"))
    ensures (Given(req.accountId) && Given(req.promptTemplateId) && FindAccount(accounts, req.accountId.value).None?)
              ==> r == Err(HttpError(404, "Account not found"))
    ensures (Given(req.accountId) && Given(req.promptTemplateId) && FindAccount(accounts, req.accountId.value).Some?
             && req.promptTemplateId.value !in templateIds)
              ==> r == Err(HttpError(404, "Prompt template not found"))
    ensures r.Ok? ==> FindAccount(accounts, req.accountId.value).Some? && req.promptTemplateId.value in templateIds
    ensures r.Ok? ==> req.accountId.value in r.value && r.value[req.accountId.value] == req.promptTemplateId.value
    ensures r.Ok? ==> forall a :: a in bindings && a != req.accountId.value ==> a in r.value && r.value[a] == bindings[a]
    ensures r.Ok? ==> r.value.Keys == bindings.Keys + {req.accountId.value}
  {
    if !Given(req.accountId) then Err(HttpError(400, "accountId is required"))
    else if !Given(req.promptTemplateId) then Err(HttpError(400, "promptTemplateId is required"))
    else if FindAccount(accounts, req.accountId.value).None? then Err(HttpError(404, "Account not found"))
    else if req.promptTemplateId.value !in templateIds then Err(HttpError(404, "Prompt template not found"))
    else Ok(bindings[req.accountId.value := req.promptTemplateId.value])
  }

  /** Sending the same binding twice leaves the bindings as one send did. */
  lemma UpsertBindingIdempotent(req: BindingRequest, accounts: seq<Account>, templateIds: set<int>, bindings: map<int, int>)
    requires UpsertBinding(req, accounts, templateIds, bindings).Ok?
    ensures UpsertBinding(req, accounts, templateIds, UpsertBinding(req, accounts, templateIds, bindings).value)
            == UpsertBinding(req, accounts, templateIds, bindings)
  {
    var once := UpsertBinding(req, accounts, templateIds, bindings).value;
    assert once[req.accountId.value := req.promptTemplateId.value] == once;
  }

  // ---------------------------------------------------------------- conversation history

  datatype User = User(id: int, username: string)

  datatype Subscription = Subscription(userId: int, subscriptionType: string)

  /** `get_conversation_messages_api`: the "default" user must exist (404), its first
      subscription row must be premium (403), and the conversation must exist (404). */
  function ConversationMessages<M>(users: seq<User>, subscriptions: seq<Subscription>,
                                   messagesFor: int -> Option<seq<M>>): (r: Result<seq<M>, HttpError>)
    ensures FirstWhere(users, (u: User) => u.username == "default").None? ==> r == Err(HttpError(404, "User not found"))
    ensures r.Ok? ==>
              var u := users[FirstWhere(users, (u: User) => u.username == "default").value];
              var s := FirstWhere(subscriptions, (s: Subscription) => s.userId == u.id);
              s.Some? && subscriptions[s.value].subscriptionType == "premium" && messagesFor(u.id) == Some(r.value)
    // a found user: 403 without a premium first subscription, then 404 without the conversation
    ensures FirstWhere(users, (u: User) => u.username == "default").Some? ==>
              var u := users[FirstWhere(users, (u: User) => u.username == "default").value];
              var s := FirstWhere(subscriptions, (s: Subscription) => s.userId == u.id);
              r == if s.None? || subscriptions[s.value].subscriptionType != "premium" then
                     Err(HttpError(403, "This feature is only available for premium members"))
                   else if messagesFor(u.id).None? then Err(HttpError(404, "Conversation not found"))
                   else Ok(messagesFor(u.id).value)
  {
    var user := FirstWhere(users, (u: User) => u.username == "default");
    if user.None? then Err(HttpError(404, "User not found"))
    else
      var u := users[user.value];
      var sub := FirstWhere(subscriptions, (s: Subscription) => s.userId == u.id);
      if sub.None? || subscriptions[sub.value].subscriptionType != "premium" then
        Err(HttpError(403, "This feature is only available for premium members"))
      else
        var messages := messagesFor(u.id);
        if messages.None? then Err(HttpError(404, "Conversation not found")) else Ok(messages.value)
  }

  /** A user without a premium subscription is refused with 403 before any conversation is read. */
  lemma NonPremiumIsRefused<M>(users: seq<User>, subscriptions: seq<Subscription>, messagesFor: int -> Option<seq<M>>, u: nat)
    requires FirstWhere(users, (x: User) => x.username == "default") == Some(u)
    requires forall k :: 0 <= k < |subscriptions| && subscriptions[k].userId == users[u].id
               ==> subscriptions[k].subscriptionType != "premium"
    ensures ConversationMessages(users, subscriptions, messagesFor)
            == Err(HttpError(403, "This feature is only available for premium members"))
  {
  }
}
