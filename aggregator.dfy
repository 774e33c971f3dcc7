/** One account's pass: `check_binance_account_silent` (credential guard, both sub-account sums,
    dust-filtered display lists, one ledger row), `check_okx_wallet_silent` (address and API-config
    guards, the retry loop, one ledger row even on failure) and `check_user_assets` (the user total
    and the notifications). */
module Aggregator {
  import opened Wrappers
  import opened Config
  import opened Pricing
  import opened WalletFetch
  import opened Assets
  import opened Ledger
  import opened Seqs

  /** What the upstream requests return for one account. */
  datatype Feeds = Feeds(
    spotAccount: Option<seq<Holding>>,     // `get_account_balance`: None for the `{}` it returns on error
    spotPrices: Option<Prices>,            // the ticker snapshot the spot conversion would see
    fundingAccount: Option<seq<Holding>>,  // `get_funding_wallet_balance`: None for the `{}` it returns on error
    fundingPrices: Option<Prices>,
    walletAttempts: seq<Attempt>)          // the outcomes of the wallet-value requests, in order

  const DefaultUserNote: string := "未命名用户"
  const DefaultBinanceNote: string := "未命名币安账户"
  const WalletNoteSuffix: string := "-OKX钱包"
  const DefaultTitle: string := "余额监控"

  /** The display entry of one holding: funding entries carry `locked = 0`. */
  function DisplayEntry(h: Holding, w: SubAccount): Entry
  {
    Entry(h.asset, Quantity(h, w), h.free, if w == Spot then h.locked else 0.0, w)
  }

  /** The display list of one sub-account: the holdings above the dust threshold, in input order. */
  function Display(hs: seq<Holding>, w: SubAccount): (r: seq<Entry>)
    ensures |r| <= |hs|
    ensures forall i :: 0 <= i < |r| ==> r[i].total > Dust && r[i].accountType == w
  {
    if hs == [] then []
    else
      var h := hs[|hs| - 1];
      Display(hs[..|hs| - 1], w) + if Quantity(h, w) > Dust then [DisplayEntry(h, w)] else []
  }

  /** An entry is listed exactly when it comes from a holding above the dust threshold. */
  lemma {:induction false} DisplayMembers(hs: seq<Holding>, w: SubAccount, e: Entry)
    ensures e in Display(hs, w) <==> exists i :: 0 <= i < |hs| && Quantity(hs[i], w) > Dust && e == DisplayEntry(hs[i], w)
  {
    if hs != [] {
      var init := hs[..|hs| - 1];
      DisplayMembers(init, w, e);
      if exists i :: 0 <= i < |init| && Quantity(init[i], w) > Dust && e == DisplayEntry(init[i], w) {
        var i :| 0 <= i < |init| && Quantity(init[i], w) > Dust && e == DisplayEntry(init[i], w);
        assert hs[i] == init[i];
      }
      if exists i :: 0 <= i < |hs| && Quantity(hs[i], w) > Dust && e == DisplayEntry(hs[i], w) {
        var i :| 0 <= i < |hs| && Quantity(hs[i], w) > Dust && e == DisplayEntry(hs[i], w);
        if i < |init| {
          assert init[i] == hs[i];
        }
      }
    }
  }

  /** The display list follows the input order: listing two runs of holdings lists each in turn. */
  lemma {:induction false} DisplayConcat(a: seq<Holding>, b: seq<Holding>, w: SubAccount)
    ensures Display(a + b, w) == Display(a, w) + Display(b, w)
    decreases |b|
  {
    if b != [] {
      var b' := b[..|b| - 1];
      assert (a + b)[..|a + b| - 1] == a + b';
      DisplayConcat(a, b', w);
    } else {
      assert a + b == a;
    }
  }

  /** What `check_binance_account_silent` returns: `None` without both credentials; otherwise the
      conversion totals over the whole balance lists and the display lists built beside them. */
  function BinanceOutcome(account: Account, feeds: Feeds): (r: Option<BinanceResult>)
    ensures r.None? <==> !Truthy(account.apiKey) || !Truthy(account.apiSecret)
    ensures r.Some? ==> r.value.totalUsdt == r.value.spotTotalUsdt + r.value.fundingTotalUsdt
    ensures r.Some? ==> r.value.balances == r.value.spotBalances + r.value.fundingBalances
  {
    if !Truthy(account.apiKey) || !Truthy(account.apiSecret) then None
    else
      var spot := feeds.spotAccount.GetOr([]);
      var funding := feeds.fundingAccount.GetOr([]);
      var spotTotal := ToUsdt(spot, Spot, feeds.spotPrices);
      var fundingTotal := ToUsdt(funding, Funding, feeds.fundingPrices);
      Some(BinanceResult(spotTotal + fundingTotal, spotTotal, fundingTotal,
                         Display(spot, Spot) + Display(funding, Funding),
                         Display(spot, Spot), Display(funding, Funding),
                         account.note.GetOr(DefaultBinanceNote)))
  }

  /** The `binance` row, keyed by the hashed API key. */
  function BinanceRow(r: BinanceResult, identifierHash: string, now: int): Row
  {
    Row("binance", r.note, identifierHash, now, r.totalUsdt,
        Some(BinanceDetails(r.spotBalances, r.fundingBalances, r.spotTotalUsdt, r.fundingTotalUsdt)))
  }

  method CheckBinanceAccountSilent(account: Account, feeds: Feeds, ledger: BalanceLedger, now: int)
    returns (result: Option<BinanceResult>)
    modifies ledger
    ensures result == BinanceOutcome(account, feeds)
    ensures result.None? ==> ledger.rows == old(ledger.rows)
    ensures result.Some? ==>
      ledger.rows == old(ledger.rows) + [BinanceRow(result.value, HashPrefix(ledger.sha256Hex(account.apiKey.value)), now)]
  {
    if !Truthy(account.apiKey) || !Truthy(account.apiSecret) {
      return None;
    }
    var note := account.note.GetOr(DefaultBinanceNote);

    var spotTotal, spotList := SpotPart(feeds.spotAccount, feeds.spotPrices);
    var fundingTotal, fundingList := FundingPart(feeds.fundingAccount, feeds.fundingPrices);
    var r := BinanceResult(spotTotal + fundingTotal, spotTotal, fundingTotal, spotList + fundingList,
                           spotList, fundingList, note);
    ledger.Append("binance", note, account.apiKey.value, now, r.totalUsdt,
                  BinanceDetails(spotList, fundingList, spotTotal, fundingTotal));
    return Some(r);
  }

  /** The spot half of `check_binance_account_silent`: the converted total and the display list,
      both empty when the account listing failed. */
  method SpotPart(spotAccount: Option<seq<Holding>>, prices: Option<Prices>) returns (total: real, list: seq<Entry>)
    ensures total == ToUsdt(spotAccount.GetOr([]), Spot, prices)
    ensures list == Display(spotAccount.GetOr([]), Spot)
  {
    total, list := 0.0, [];
    if spotAccount.Some? {
      var fetched;
      total, fetched := ConvertToUsdt(spotAccount.value, prices);
      list := ListSpot(spotAccount.value);
    }
  }

  /** The spot display loop: holdings whose `free + locked` exceeds the dust threshold. */
  method ListSpot(balances: seq<Holding>) returns (list: seq<Entry>)
    ensures list == Display(balances, Spot)
  {
    list := [];
    for i := 0 to |balances|
      invariant list == Display(balances[..i], Spot)
    {
      assert balances[..i + 1][..i] == balances[..i];
      var b := balances[i];
      var totalBalance := b.free + b.locked;
      if totalBalance > Dust {
        list := list + [Entry(b.asset, totalBalance, b.free, b.locked, Spot)];
      }
    }
    assert balances[..|balances|] == balances;
  }

  /** The funding half of `check_binance_account_silent`; an empty listing is skipped like a failed
      one. */
  method FundingPart(fundingAccount: Option<seq<Holding>>, prices: Option<Prices>) returns (total: real, list: seq<Entry>)
    ensures total == ToUsdt(fundingAccount.GetOr([]), Funding, prices)
    ensures list == Display(fundingAccount.GetOr([]), Funding)
  {
    total, list := 0.0, [];
    if fundingAccount.Some? && |fundingAccount.value| > 0 {
      var fetched;
      total, fetched := ConvertFundingToUsdt(fundingAccount.value, prices);
      list := ListFunding(fundingAccount.value);
    }
  }

  /** The funding display loop: assets whose `free` exceeds the dust threshold, with nothing locked. */
  method ListFunding(assets: seq<Holding>) returns (list: seq<Entry>)
    ensures list == Display(assets, Funding)
  {
    list := [];
    for i := 0 to |assets|
      invariant list == Display(assets[..i], Funding)
    {
      assert assets[..i + 1][..i] == assets[..i];
      var a := assets[i];
      if a.free > Dust {
        list := list + [Entry(a.asset, a.free, a.free, 0.0, Funding)];
      }
    }
    assert assets[..|assets|] == assets;
  }

  /** What `check_okx_wallet_silent` returns: `None` without an address or without all four API
      settings; otherwise the retry loop's result, under the user's note with the wallet suffix. */
  function WalletOutcome(account: Account, wallet: StringObject, okxConfig: StringObject, attempts: seq<Attempt>)
    : (r: Option<WalletResult>)
    ensures r.None? <==> !Truthy(Get(wallet, "address")) || !OkxConfigComplete(okxConfig)
    ensures r.Some? ==> r.value.chains == (if "chains" in wallet then wallet["chains"] else "1")
    ensures r.Some? && !r.value.fetchSuccess ==> r.value.totalUsd == 0.0
  {
    var address := Get(wallet, "address");
    if !Truthy(address) || !OkxConfigComplete(okxConfig) then None
    else
      var (total, success) := WalletBalance(attempts);
      Some(WalletResult(total, address.value, WalletChains(wallet), account.note.GetOr(DefaultUserNote) + WalletNoteSuffix, success))
  }

  /** The `okx_wallet` row, keyed by the hashed address; written whether or not the fetch succeeded. */
  function WalletRow(r: WalletResult, identifierHash: string, now: int): Row
  {
    Row("okx_wallet", r.note, identifierHash, now, r.totalUsd,
        Some(WalletDetails(r.address, r.chains, r.totalUsd, r.fetchSuccess)))
  }

  method CheckOkxWalletSilent(account: Account, wallet: StringObject, okxConfig: StringObject,
                              attempts: seq<Attempt>, ledger: BalanceLedger, now: int)
    returns (result: Option<WalletResult>)
    modifies ledger
    ensures result == WalletOutcome(account, wallet, okxConfig, attempts)
    ensures result.None? ==> ledger.rows == old(ledger.rows)
    ensures result.Some? ==>
      ledger.rows == old(ledger.rows) + [WalletRow(result.value, HashPrefix(ledger.sha256Hex(result.value.address)), now)]
  {
    var address := Get(wallet, "address");
    var chains := WalletChains(wallet);
    var note := account.note.GetOr(DefaultUserNote);
    if !Truthy(address) {
      return None;
    }
    if !OkxConfigComplete(okxConfig) {
      return None;
    }
    var total, success, made, sleeps := GetOkxWalletBalance(attempts);
    var walletNote := note + WalletNoteSuffix;
    ledger.Append("okx_wallet", walletNote, address.value, now, total,
                  WalletDetails(address.value, chains, total, success));
    return Some(WalletResult(total, address.value, chains, walletNote, success));
  }

  /** `okx_wallet and okx_api_config`: the wallet is looked at only when both are non-empty. */
  predicate WalletConfigured(account: Account, okxApiConfig: StringObject)
  {
    ObjectTruthy(account.okxWallet) && |okxApiConfig| > 0
  }

  function UserWallet(account: Account, okxApiConfig: StringObject, feeds: Feeds): Option<WalletResult>
  {
    if WalletConfigured(account, okxApiConfig)
    then WalletOutcome(account, account.okxWallet.value, okxApiConfig, feeds.walletAttempts)
    else None
  }

  /** The `user_assets` dictionary: the Binance total when there is a result, plus the wallet total
      only when its fetch succeeded. */
  function UserAssetsOf(account: Account, okxApiConfig: StringObject, feeds: Feeds): UserAssets
  {
    var b := BinanceOutcome(account, feeds);
    var w := UserWallet(account, okxApiConfig, feeds);
    UserAssets(b, w, 0.0 + BinanceContribution(b) + WalletContribution(w))
  }

  /** The rows one pass appends, Binance first. */
  function UserRows(account: Account, okxApiConfig: StringObject, feeds: Feeds, sha256Hex: string -> string, now: int)
    : seq<Row>
  {
    var a := UserAssetsOf(account, okxApiConfig, feeds);
    (if a.binance.Some? then [BinanceRow(a.binance.value, HashPrefix(sha256Hex(account.apiKey.value)), now)] else [])
    + (if a.okxWallet.Some? then [WalletRow(a.okxWallet.value, HashPrefix(sha256Hex(a.okxWallet.value.address)), now)] else [])
  }

  /** One queued `sendtext_remote_async` call; the message is `format_user_assets_message(note, assets)`. */
  datatype Notice = Notice(toUser: string, title: string, userNote: string, assets: UserAssets)

  /** Who is notified: every `notify_users` entry, when notifications are enabled (the default). */
  function Recipients(account: Account, settings: NotificationSettings): seq<string>
  {
    if settings.enableNotifications.GetOr(true) && |account.notifyUsers| > 0 then account.notifyUsers else []
  }

  /** The notifications one pass queues: one per recipient, all carrying the same report. */
  function UserNotices(account: Account, settings: NotificationSettings, assets: UserAssets): (r: seq<Notice>)
    ensures |r| == |Recipients(account, settings)|
    ensures forall i :: 0 <= i < |r| ==>
      r[i] == Notice(Recipients(account, settings)[i], settings.title.GetOr(DefaultTitle),
                     account.note.GetOr(DefaultUserNote), assets)
  {
    var to := Recipients(account, settings);
    seq(|to|, i requires 0 <= i < |to| =>
      Notice(to[i], settings.title.GetOr(DefaultTitle), account.note.GetOr(DefaultUserNote), assets))
  }

  /** `check_user_assets`: the exchange account, then the wallet, then one notification per
      recipient. */
  method CheckUserAssets(account: Account, okxApiConfig: StringObject, settings: NotificationSettings,
                         feeds: Feeds, ledger: BalanceLedger, now: int)
    returns (assets: UserAssets, outbox: seq<Notice>)
    modifies ledger
    ensures assets == UserAssetsOf(account, okxApiConfig, feeds)
    ensures ledger.rows == old(ledger.rows) + UserRows(account, okxApiConfig, feeds, ledger.sha256Hex, now)
    ensures outbox == UserNotices(account, settings, assets)
  {
    assets := CheckUserSources(account, okxApiConfig, feeds, ledger, now);
    outbox := QueueNotices(account, settings, assets);
  }

  /** The data part of `check_user_assets`: the total starts at 0, takes the exchange total when
      there is a result and the wallet value when its fetch succeeded. */
  method CheckUserSources(account: Account, okxApiConfig: StringObject, feeds: Feeds, ledger: BalanceLedger, now: int)
    returns (assets: UserAssets)
    modifies ledger
    ensures assets == UserAssetsOf(account, okxApiConfig, feeds)
    ensures ledger.rows == old(ledger.rows) + UserRows(account, okxApiConfig, feeds, ledger.sha256Hex, now)
  {
    assets := UserAssets(None, None, 0.0);
    var binanceResult := CheckBinanceAccountSilent(account, feeds, ledger, now);
    ghost var afterBinance := ledger.rows;
    if binanceResult.Some? {
      assets := assets.(binance := binanceResult, totalUsd := assets.totalUsd + binanceResult.value.totalUsdt);
    }
    var okxResult := CheckUserWallet(account, okxApiConfig, feeds, ledger, now);
    if okxResult.Some? {
      assets := assets.(okxWallet := okxResult);
      if okxResult.value.fetchSuccess {
        assets := assets.(totalUsd := assets.totalUsd + okxResult.value.totalUsd);
      }
    }
    ConcatAssoc(old(ledger.rows), afterBinance[|old(ledger.rows)|..], ledger.rows[|afterBinance|..]);
    assert afterBinance == old(ledger.rows) + afterBinance[|old(ledger.rows)|..];
    assert ledger.rows == afterBinance + ledger.rows[|afterBinance|..];
  }

  /** The wallet part of `check_user_assets`: checked only when both the wallet and the OKX settings
      are non-empty. */
  method CheckUserWallet(account: Account, okxApiConfig: StringObject, feeds: Feeds, ledger: BalanceLedger, now: int)
    returns (result: Option<WalletResult>)
    modifies ledger
    ensures result == UserWallet(account, okxApiConfig, feeds)
    ensures result.None? ==> ledger.rows == old(ledger.rows)
    ensures result.Some? ==>
      ledger.rows == old(ledger.rows) + [WalletRow(result.value, HashPrefix(ledger.sha256Hex(result.value.address)), now)]
  {
    result := None;
    if WalletConfigured(account, okxApiConfig) {
      result := CheckOkxWalletSilent(account, account.okxWallet.value, okxApiConfig, feeds.walletAttempts, ledger, now);
    }
  }

  /** The notification loop of `check_user_assets`. */
  method QueueNotices(account: Account, settings: NotificationSettings, assets: UserAssets) returns (outbox: seq<Notice>)
    ensures outbox == UserNotices(account, settings, assets)
  {
    var note := account.note.GetOr(DefaultUserNote);
    outbox := [];
    if settings.enableNotifications.GetOr(true) && |account.notifyUsers| > 0 {
      var title := settings.title.GetOr(DefaultTitle);
      for i := 0 to |account.notifyUsers|
        invariant |outbox| == i
        invariant forall j :: 0 <= j < i ==> outbox[j] == Notice(account.notifyUsers[j], title, note, assets)
      {
        outbox := outbox + [Notice(account.notifyUsers[i], title, note, assets)];
      }
    }
  }

  /** The sections of `config.json` a checking round reads; a missing section is an empty one. */
  datatype CheckerConfig = CheckerConfig(
    notificationSettings: NotificationSettings,
    okxApi: StringObject,
    binanceAccounts: seq<Account>)

  /** The ledger rows of a round over `accounts`, account after account. */
  function RoundRows(accounts: seq<Account>, okxApiConfig: StringObject, feedsOf: nat -> Feeds,
                     sha256Hex: string -> string, now: int): seq<Row>
  {
    if accounts == [] then []
    else
      var k := |accounts| - 1;
      RoundRows(accounts[..k], okxApiConfig, feedsOf, sha256Hex, now)
        + UserRows(accounts[k], okxApiConfig, feedsOf(k), sha256Hex, now)
  }

  /** The notifications of a round, account after account. */
  function RoundNotices(accounts: seq<Account>, okxApiConfig: StringObject, settings: NotificationSettings,
                        feedsOf: nat -> Feeds): seq<Notice>
  {
    if accounts == [] then []
    else
      var k := |accounts| - 1;
      var a := accounts[k];
      RoundNotices(accounts[..k], okxApiConfig, settings, feedsOf) + UserNotices(a, settings, UserAssetsOf(a, okxApiConfig, feedsOf(k)))
  }

  /** `check_all_accounts`: `None` is a configuration that failed to load (the empty dict); otherwise
      every account is checked in order, `feedsOf(i)` being what the upstream services return for
      account `i`. */
  method CheckAllAccounts(config: Option<CheckerConfig>, feedsOf: nat -> Feeds, ledger: BalanceLedger, now: int)
    returns (outbox: seq<Notice>)
    modifies ledger
    ensures config.None? ==> ledger.rows == old(ledger.rows) && outbox == []
    ensures config.Some? ==>
      ledger.rows == old(ledger.rows)
        + RoundRows(config.value.binanceAccounts, config.value.okxApi, feedsOf, ledger.sha256Hex, now)
    ensures config.Some? ==>
      outbox == RoundNotices(config.value.binanceAccounts, config.value.okxApi, config.value.notificationSettings, feedsOf)
  {
    outbox := [];
    if config.None? {
      return;
    }
    var accounts := config.value.binanceAccounts;
    var okxApi := config.value.okxApi;
    var settings := config.value.notificationSettings;
    var hash := ledger.sha256Hex;
    for i := 0 to |accounts|
      invariant ledger.rows == old(ledger.rows) + RoundRows(accounts[..i], okxApi, feedsOf, hash, now)
      invariant outbox == RoundNotices(accounts[..i], okxApi, settings, feedsOf)
    {
      RoundStep(accounts, i, okxApi, settings, feedsOf, hash, now);
      ghost var rowsBefore := RoundRows(accounts[..i], okxApi, feedsOf, hash, now);
      ghost var added := UserRows(accounts[i], okxApi, feedsOf(i), hash, now);
      var assets, notices := CheckUserAssets(accounts[i], okxApi, settings, feedsOf(i), ledger, now);
      outbox := outbox + notices;
      ConcatAssoc(old(ledger.rows), rowsBefore, added);
    }
    assert accounts[..|accounts|] == accounts;
  }

  /** A round over one more account adds that account's rows and notifications. */
  lemma RoundStep(accounts: seq<Account>, i: nat, okxApiConfig: StringObject, settings: NotificationSettings,
                  feedsOf: nat -> Feeds, sha256Hex: string -> string, now: int)
    requires i < |accounts|
    ensures RoundRows(accounts[..i + 1], okxApiConfig, feedsOf, sha256Hex, now)
      == RoundRows(accounts[..i], okxApiConfig, feedsOf, sha256Hex, now)
         + UserRows(accounts[i], okxApiConfig, feedsOf(i), sha256Hex, now)
    ensures RoundNotices(accounts[..i + 1], okxApiConfig, settings, feedsOf)
      == RoundNotices(accounts[..i], okxApiConfig, settings, feedsOf) + UserNotices(accounts[i], settings, UserAssetsOf(accounts[i], okxApiConfig, feedsOf(i)))
  {
    assert accounts[..i + 1][..i] == accounts[..i];
  }

  /** How many sources of an account are attempted: the exchange when both credentials are set, the
      wallet when it has an address and the four API settings are present. */
  function SourcesAttempted(account: Account, okxApiConfig: StringObject): nat
  {
    (if Truthy(account.apiKey) && Truthy(account.apiSecret) then 1 else 0)
      + (if WalletConfigured(account, okxApiConfig) && Truthy(Get(account.okxWallet.value, "address"))
            && OkxConfigComplete(okxApiConfig) then 1 else 0)
  }

  function SourcesInRound(accounts: seq<Account>, okxApiConfig: StringObject): nat
  {
    if accounts == [] then 0
    else SourcesInRound(accounts[..|accounts| - 1], okxApiConfig) + SourcesAttempted(accounts[|accounts| - 1], okxApiConfig)
  }

  /** A round writes exactly one ledger row per attempted source, whatever the upstream services
      return. */
  lemma {:induction false} RoundRowCount(accounts: seq<Account>, okxApiConfig: StringObject, feedsOf: nat -> Feeds,
                                         sha256Hex: string -> string, now: int)
    ensures |RoundRows(accounts, okxApiConfig, feedsOf, sha256Hex, now)| == SourcesInRound(accounts, okxApiConfig)
  {
    if accounts != [] {
      var k := |accounts| - 1;
      RoundRowCount(accounts[..k], okxApiConfig, feedsOf, sha256Hex, now);
      OneRowPerAttemptedSource(accounts[k], okxApiConfig, feedsOf(k), sha256Hex, now);
    }
  }

  /** A holding at or below the dust threshold that the priced pass skips is missing from the display
      list but still counted in the sum. */
  lemma DustCountedNotListed(hs: seq<Holding>, h: Holding, w: SubAccount, snapshot: Option<Prices>)
    requires h.asset in PricedExclusions(w)
    requires 0.0 < Quantity(h, w) <= Dust
    ensures Display(hs + [h], w) == Display(hs, w)
    ensures ToUsdt(hs + [h], w, snapshot) == ToUsdt(hs, w, snapshot) + Quantity(h, w)
  {
    var hs' := hs + [h];
    assert hs'[..|hs'| - 1] == hs;
    assert h.asset in StableCoins;
    NeedsPricesPrefix(hs', w, |hs|);
    assert hs'[..|hs| + 1] == hs';
  }

  /** The combined list holds exactly the above-dust holdings of both sub-accounts. */
  lemma BinanceBalancesListed(account: Account, feeds: Feeds, e: Entry)
    requires BinanceOutcome(account, feeds).Some?
    ensures var spot, funding := feeds.spotAccount.GetOr([]), feeds.fundingAccount.GetOr([]);
      e in BinanceOutcome(account, feeds).value.balances <==>
        (exists i :: 0 <= i < |spot| && Quantity(spot[i], Spot) > Dust && e == DisplayEntry(spot[i], Spot))
        || (exists i :: 0 <= i < |funding| && funding[i].free > Dust && e == DisplayEntry(funding[i], Funding))
  {
    DisplayMembers(feeds.spotAccount.GetOr([]), Spot, e);
    DisplayMembers(feeds.fundingAccount.GetOr([]), Funding, e);
  }

  /** With no exchange data at all the user total is the wallet value, the value of the first of
      the five attempts that succeeded. */
  lemma ExchangeDownWalletUp(account: Account, okxApiConfig: StringObject, feeds: Feeds)
    requires feeds.spotAccount.None? && feeds.fundingAccount.None?
    requires UserWallet(account, okxApiConfig, feeds).Some? && UserWallet(account, okxApiConfig, feeds).value.fetchSuccess
    ensures exists k ::
      && 0 <= k < MaxRetries && Succeeds(AttemptAt(feeds.walletAttempts, k))
      && (forall j :: 0 <= j < k ==> !Succeeds(AttemptAt(feeds.walletAttempts, j)))
      && UserAssetsOf(account, okxApiConfig, feeds).totalUsd == ValueOf(AttemptAt(feeds.walletAttempts, k))
  {
    WalletBalanceMeaning(feeds.walletAttempts);
    assert NeedsPrices([], Spot) == false && NeedsPrices([], Funding) == false;
  }

  /** A configured wallet whose five attempts all fail adds nothing to the user total, but its row is
      still written, with total 0 under the suffixed note. */
  lemma FailedWalletStillRecorded(account: Account, okxApiConfig: StringObject, feeds: Feeds,
                                  sha256Hex: string -> string, now: int)
    requires WalletConfigured(account, okxApiConfig)
    requires Truthy(Get(account.okxWallet.value, "address")) && OkxConfigComplete(okxApiConfig)
    requires forall i :: 0 <= i < MaxRetries ==> !Succeeds(AttemptAt(feeds.walletAttempts, i))
    ensures UserAssetsOf(account, okxApiConfig, feeds).totalUsd == BinanceContribution(BinanceOutcome(account, feeds))
    ensures var rows := UserRows(account, okxApiConfig, feeds, sha256Hex, now);
      var address := account.okxWallet.value["address"];
      |rows| >= 1 && rows[|rows| - 1] ==
        Row("okx_wallet", account.note.GetOr(DefaultUserNote) + WalletNoteSuffix, HashPrefix(sha256Hex(address)), now, 0.0,
            Some(WalletDetails(address, WalletChains(account.okxWallet.value), 0.0, false)))
  {
    WalletBalanceMeaning(feeds.walletAttempts);
  }

  /** One row per source that passed its guards, and none for a source that did not. */
  lemma OneRowPerAttemptedSource(account: Account, okxApiConfig: StringObject, feeds: Feeds,
                                 sha256Hex: string -> string, now: int)
    ensures var rows := UserRows(account, okxApiConfig, feeds, sha256Hex, now);
      var binance := Truthy(account.apiKey) && Truthy(account.apiSecret);
      var wallet := WalletConfigured(account, okxApiConfig)
        && Truthy(Get(account.okxWallet.value, "address")) && OkxConfigComplete(okxApiConfig);
      && |rows| == (if binance then 1 else 0) + (if wallet then 1 else 0)
      && (binance ==> rows[0].accountType == "binance")
      && (wallet ==> rows[|rows| - 1].accountType == "okx_wallet")
  {
  }

  /** With non-negative prices and a non-negative reported wallet value, the user total is not negative. */
  lemma UserTotalNonNegative(account: Account, okxApiConfig: StringObject, feeds: Feeds)
    requires feeds.spotPrices.Some? ==> forall s :: s in feeds.spotPrices.value ==> feeds.spotPrices.value[s] >= 0.0
    requires feeds.fundingPrices.Some? ==> forall s :: s in feeds.fundingPrices.value ==> feeds.fundingPrices.value[s] >= 0.0
    requires forall i :: 0 <= i < MaxRetries && Succeeds(AttemptAt(feeds.walletAttempts, i)) ==>
      ValueOf(AttemptAt(feeds.walletAttempts, i)) >= 0.0
    ensures UserAssetsOf(account, okxApiConfig, feeds).totalUsd >= 0.0
  {
    ToUsdtNonNegative(feeds.spotAccount.GetOr([]), Spot, feeds.spotPrices);
    ToUsdtNonNegative(feeds.fundingAccount.GetOr([]), Funding, feeds.fundingPrices);
    WalletBalanceMeaning(feeds.walletAttempts);
  }
}
