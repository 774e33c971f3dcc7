/** The configuration shapes the balance checker reads, and Python's truthiness on them. */
module Config {
  import opened Wrappers

  /** A JSON object with string values: an account's `okx_wallet`, or the `okx_api` section. */
  type StringObject = map<string, string>

  /** `obj.get(key)` */
  function Get(obj: StringObject, key: string): Option<string>
  {
    if key in obj then Some(obj[key]) else None
  }

  /** `bool(v)` for a value that is a string or missing. */
  predicate Truthy(v: Option<string>)
  {
    v.Some? && v.value != ""
  }

  /** `bool(obj)` for an object that may be missing: present and not empty. */
  predicate ObjectTruthy(obj: Option<StringObject>)
  {
    obj.Some? && |obj.value| > 0
  }

  /** The four OKX API settings, in the order they are checked. */
  const RequiredOkxKeys: seq<string> := ["project_id", "api_key", "secret_key", "passphrase"]

  /** `all(okx_config.get(key) for key in required_keys)` */
  predicate OkxConfigComplete(okxConfig: StringObject)
  {
    forall i :: 0 <= i < |RequiredOkxKeys| ==> Truthy(Get(okxConfig, RequiredOkxKeys[i]))
  }

  /** One entry of `binance_accounts`; `None` is a missing key. */
  datatype Account = Account(
    apiKey: Option<string>,
    apiSecret: Option<string>,
    note: Option<string>,
    notifyUsers: seq<string>,
    okxWallet: Option<StringObject>)

  /** The `notification_settings` section. */
  datatype NotificationSettings = NotificationSettings(enableNotifications: Option<bool>, title: Option<string>)

  /** `okx_wallet.get('chains', '1')`: the primary chain unless configured. */
  function WalletChains(wallet: StringObject): string
  {
    Get(wallet, "chains").GetOr("1")
  }
}
