/** The OKX configuration test script: `test_okx_config` checks the four API settings and that every
    configured wallet has an address; `test_okx_api_call` picks the first account with an addressed
    wallet and queries its balance. Reading `config.json` is an input: `None` stands for a missing file
    or one that is not JSON. */
module OkxConfigCheck {
  import opened Wrappers
  import opened Text
  import opened Seqs
  import opened Config
  import opened WalletFetch

  /** The parts of `config.json` the script reads; a missing section is an empty one. */
  datatype LoadedConfig = LoadedConfig(okxApi: StringObject, binanceAccounts: seq<Account>)

  /** How `test_okx_config` ends: `ConfigPassed` is its `True`, every other verdict a `False`. */
  datatype ConfigVerdict =
    | ConfigUnreadable
    | KeysMissing(keys: seq<string>)
    | WalletWithoutAddress(note: string)
    | ConfigPassed(walletCount: nat)

  /** `[key for key in required_keys if not okx_api.get(key)]` */
  function MissingKeys(okxApi: StringObject): seq<string>
  {
    FilterMap(RequiredOkxKeys, key => !Truthy(Get(okxApi, key)), key => key)
  }

  /** The missing keys are the required keys whose setting is absent or empty, and there are none
      exactly when the settings are complete. */
  lemma MissingKeysMeaning(okxApi: StringObject)
    ensures forall key :: key in MissingKeys(okxApi) <==> key in RequiredOkxKeys && !Truthy(Get(okxApi, key))
    ensures MissingKeys(okxApi) == [] <==> OkxConfigComplete(okxApi)
  {
    FilterMapMembers(RequiredOkxKeys, key => !Truthy(Get(okxApi, key)), key => key);
    EmptyIffNoMembers(MissingKeys(okxApi));
    if !OkxConfigComplete(okxApi) {
      var i :| 0 <= i < |RequiredOkxKeys| && !Truthy(Get(okxApi, RequiredOkxKeys[i]));
      assert RequiredOkxKeys[i] in MissingKeys(okxApi);
    } else {
      forall key | key in RequiredOkxKeys ensures Truthy(Get(okxApi, key)) {
        var i :| 0 <= i < |RequiredOkxKeys| && RequiredOkxKeys[i] == key;
      }
    }
  }

  /** With no setting at all, every key is reported, in the order they are checked. */
  lemma NothingConfiguredReportsAllKeys()
    ensures MissingKeys(map[]) == RequiredOkxKeys
  {
    var keep := (key: string) => !Truthy(Get(map[], key));
    var id := (key: string) => key;
    assert RequiredOkxKeys[..0] == [];
    assert RequiredOkxKeys[..1][..0] == RequiredOkxKeys[..0];
    assert RequiredOkxKeys[..2][..1] == RequiredOkxKeys[..1];
    assert RequiredOkxKeys[..3][..2] == RequiredOkxKeys[..2];
    assert RequiredOkxKeys[..4][..3] == RequiredOkxKeys[..3];
    assert FilterMap(RequiredOkxKeys[..1], keep, id) == RequiredOkxKeys[..1];
    assert FilterMap(RequiredOkxKeys[..2], keep, id) == RequiredOkxKeys[..2];
    assert FilterMap(RequiredOkxKeys[..3], keep, id) == RequiredOkxKeys[..3];
    assert RequiredOkxKeys[..4] == RequiredOkxKeys;
  }

  /** An account whose `okx_wallet` is configured but has no usable `address`. */
  predicate LacksAddress(a: Account)
  {
    ObjectTruthy(a.okxWallet) && !Truthy(Get(a.okxWallet.value, "address"))
  }

  /** `f'用户{i+1}'`: the name of the account at 0-based position `i` when it has no note. */
  function DefaultNote(i: nat): string
  {
    "用户" + NatToString(i + 1)
  }

  /** `account.get('note', f'用户{i+1}')` */
  function NoteOf(a: Account, i: nat): string
  {
    a.note.GetOr(DefaultNote(i))
  }

  /** The default note carries the 1-based position, which can be read back from it. */
  lemma DefaultNoteNumbersFromOne(i: nat)
    ensures var n := DefaultNote(i); |n| > 2 && n[..2] == "用户" && ParseNat(n[2..]) == i + 1
  {
    var n := DefaultNote(i);
    assert n[2..] == NatToString(i + 1);
    ParseNatToString(i + 1);
  }

  /** The number of accounts with a configured wallet. */
  function WalletCount(accounts: seq<Account>): (r: nat)
    ensures r <= |accounts|
  {
    if accounts == [] then 0
    else WalletCount(accounts[..|accounts| - 1]) + if ObjectTruthy(accounts[|accounts| - 1].okxWallet) then 1 else 0
  }

  /** `j` is the first account whose wallet lacks an address. */
  predicate FirstLacking(accounts: seq<Account>, j: int)
  {
    0 <= j < |accounts| && LacksAddress(accounts[j]) && forall i :: 0 <= i < j ==> !LacksAddress(accounts[i])
  }

  /** The wallet loop of `test_okx_config`: it stops at the first wallet without an address and
      otherwise passes with the number of configured wallets. */
  method CheckWallets(accounts: seq<Account>) returns (v: ConfigVerdict)
    ensures v.ConfigPassed? || v.WalletWithoutAddress?
    ensures v.WalletWithoutAddress? ==> exists j :: FirstLacking(accounts, j) && v.note == NoteOf(accounts[j], j)
    ensures v.ConfigPassed? <==> forall i :: 0 <= i < |accounts| ==> !LacksAddress(accounts[i])
    ensures v.ConfigPassed? ==> v.walletCount == WalletCount(accounts)
  {
    var count: nat := 0;
    for i := 0 to |accounts|
      invariant count == WalletCount(accounts[..i])
      invariant forall k :: 0 <= k < i ==> !LacksAddress(accounts[k])
    {
      assert accounts[..i + 1][..i] == accounts[..i];
      var wallet := accounts[i].okxWallet;
      if ObjectTruthy(wallet) {
        count := count + 1;
        var address := Get(wallet.value, "address");
        var note := NoteOf(accounts[i], i);
        if !Truthy(address) {
          assert FirstLacking(accounts, i);
          return WalletWithoutAddress(note);
        }
      }
    }
    assert accounts[..|accounts|] == accounts;
    return ConfigPassed(count);
  }

  /** `test_okx_config`: an unreadable file, then missing settings, then the first wallet without an
      address fail it; otherwise it passes, whether or not any wallet is configured. */
  method TestOkxConfig(config: Option<LoadedConfig>) returns (v: ConfigVerdict)
    ensures config.None? ==> v == ConfigUnreadable
    ensures config.Some? && !OkxConfigComplete(config.value.okxApi) ==> v == KeysMissing(MissingKeys(config.value.okxApi))
    ensures config.Some? && OkxConfigComplete(config.value.okxApi) ==> v.ConfigPassed? || v.WalletWithoutAddress?
    ensures v.WalletWithoutAddress? ==>
      exists j :: FirstLacking(config.value.binanceAccounts, j) && v.note == NoteOf(config.value.binanceAccounts[j], j)
    ensures v.ConfigPassed? <==>
      && config.Some? && OkxConfigComplete(config.value.okxApi)
      && forall i :: 0 <= i < |config.value.binanceAccounts| ==> !LacksAddress(config.value.binanceAccounts[i])
    ensures v.ConfigPassed? ==> v.walletCount == WalletCount(config.value.binanceAccounts)
  {
    if config.None? {
      return ConfigUnreadable;
    }
    var missing := MissingKeys(config.value.okxApi);
    MissingKeysMeaning(config.value.okxApi);
    if missing != [] {
      return KeysMissing(missing);
    }
    v := CheckWallets(config.value.binanceAccounts);
  }

  // ---------------------------------------------------------------------
  // test_okx_api_call

  /** `account.get('note', '测试用户')`: the name used for the tested account. */
  const DefaultTestNote: string := "测试用户"

  /** An account whose `okx_wallet` is configured and has an address. */
  predicate HasAddressedWallet(a: Account)
  {
    ObjectTruthy(a.okxWallet) && Truthy(Get(a.okxWallet.value, "address"))
  }

  datatype TestWallet = TestWallet(wallet: StringObject, note: string)

  /** The search loop of `test_okx_api_call`: the first account with an addressed wallet. */
  method FindTestWallet(accounts: seq<Account>) returns (found: Option<TestWallet>)
    ensures found.None? <==> forall i :: 0 <= i < |accounts| ==> !HasAddressedWallet(accounts[i])
    ensures found.Some? ==>
      exists j :: && 0 <= j < |accounts| && HasAddressedWallet(accounts[j])
                  && (forall i :: 0 <= i < j ==> !HasAddressedWallet(accounts[i]))
                  && found.value == TestWallet(accounts[j].okxWallet.value, accounts[j].note.GetOr(DefaultTestNote))
  {
    found := None;
    for i := 0 to |accounts|
      invariant forall k :: 0 <= k < i ==> !HasAddressedWallet(accounts[k])
    {
      var wallet := accounts[i].okxWallet;
      if ObjectTruthy(wallet) && Truthy(Get(wallet.value, "address")) {
        found := Some(TestWallet(wallet.value, accounts[i].note.GetOr(DefaultTestNote)));
        return;
      }
    }
  }

  /** `balance >= 0` where `balance` is the `(total, success)` pair `get_okx_wallet_balance` returns:
      Python does not order a tuple against an int and raises `TypeError`, written here as `None`. */
  function CompareWithZero(balance: (real, bool)): Option<bool>
  {
    None
  }

  /** `test_okx_api_call` as written; `outcomes` are the attempts of the balance query. The `TypeError`
      of the comparison is caught by `except Exception`, so the test fails for every configured
      wallet, whatever the API answers. */
  method TestOkxApiCallAsWritten(accounts: seq<Account>, outcomes: seq<Attempt>) returns (passed: bool)
    ensures passed <==> forall i :: 0 <= i < |accounts| ==> !HasAddressedWallet(accounts[i])
  {
    var found := FindTestWallet(accounts);
    if found.None? {
      return true;
    }
    var total, success, attempts, sleeps := GetOkxWalletBalance(outcomes);
    var comparison := CompareWithZero((total, success));
    passed := comparison == Some(true);
  }

  /** `test_okx_api_call` reading the success flag of the pair: it passes when no wallet is configured
      or when the query of the first addressed wallet succeeds. */
  method TestOkxApiCall(accounts: seq<Account>, outcomes: seq<Attempt>) returns (passed: bool)
    ensures passed <==>
      (forall i :: 0 <= i < |accounts| ==> !HasAddressedWallet(accounts[i]))
      || exists i :: 0 <= i < MaxRetries && Succeeds(AttemptAt(outcomes, i))
  {
    var found := FindTestWallet(accounts);
    if found.None? {
      return true;
    }
    var total, success, attempts, sleeps := GetOkxWalletBalance(outcomes);
    WalletBalanceMeaning(outcomes);
    passed := success;
  }

  /** One addressed wallet and an API that answers at once: the test as written fails, the corrected
      one passes. */
  method WorkingWalletScenario()
  {
    var wallet := map["address" := "0x1234567890abcdef"];
    var accounts := [Account(None, None, Some("alice"), [], Some(wallet))];
    var ok := Response(200, Some("0"), [Number(42.0)]);
    assert HasAddressedWallet(accounts[0]);
    assert Succeeds(AttemptAt([ok], 0));
    var asWritten := TestOkxApiCallAsWritten(accounts, [ok]);
    var corrected := TestOkxApiCall(accounts, [ok]);
    assert !asWritten && corrected;
  }
}
