/** Construction of the signed requests: the Binance query string and URL (`get_account_balance`,
    `get_funding_wallet_balance`, `get_binance_signature`) and the OKX query string and signing message
    (`get_okx_wallet_balance`, `get_okx_signature`). HMAC-SHA256 and base64 are parameters: the model
    fixes only the strings handed to them. */
module Signing {
  import opened Text
  import opened Seqs

  /** HMAC-SHA256 keyed by the first argument over the second, hex-encoded. */
  type HexMac = (string, string) -> string
  /** HMAC-SHA256 keyed by the first argument over the second, raw digest. */
  type RawMac = (string, string) -> seq<bv8>
  /** Standard base64 encoding. */
  type Base64 = seq<bv8> -> string

  type Param = (string, string)

  datatype Request = Request(httpMethod: string, url: string, headers: seq<Param>)

  // ---------------------------------------------------------------------
  // Query strings: `'&'.join(f"{k}={v}" ...)`, no percent-encoding

  function Field(p: Param): string
  {
    p.0 + "=" + p.1
  }

  function QueryString(ps: seq<Param>): string
  {
    if |ps| == 0 then ""
    else if |ps| == 1 then Field(ps[0])
    else Field(ps[0]) + "&" + QueryString(ps[1..])
  }

  function ReadFields(parts: seq<string>): seq<Param>
  {
    if parts == [] then [] else [(Before(parts[0], '='), After(parts[0], '='))] + ReadFields(parts[1..])
  }

  /** How a receiver reads a query string: fields on '&', each split at its first '='. */
  function QueryFields(q: string): seq<Param>
  {
    ReadFields(Split(q, '&'))
  }

  /** Keys free of '&' and '=', values free of '&': what the join needs to be read back. */
  predicate Unambiguous(ps: seq<Param>)
  {
    forall i :: 0 <= i < |ps| ==> '&' !in ps[i].0 && '=' !in ps[i].0 && '&' !in ps[i].1
  }

  /** A receiver recovers exactly the parameters that were joined. */
  lemma {:induction false} QueryStringRoundTrip(ps: seq<Param>)
    requires |ps| >= 1 && Unambiguous(ps)
    ensures QueryFields(QueryString(ps)) == ps
  {
    var f := Field(ps[0]);
    assert f == ps[0].0 + ['='] + ps[0].1;
    BeforeAfter(ps[0].0, '=', ps[0].1);
    if |ps| == 1 {
      SplitNoSeparator(f, '&');
      assert ReadFields([f]) == [ps[0]];
    } else {
      var rest := QueryString(ps[1..]);
      assert QueryString(ps) == f + ['&'] + rest;
      SplitAtSeparator(f, '&', rest);
      QueryStringRoundTrip(ps[1..]);
      assert ([f] + Split(rest, '&'))[1..] == Split(rest, '&');
      assert [ps[0]] + ps[1..] == ps;
    }
  }

  /** Appending a parameter appends "&key=value". */
  lemma {:induction false} QueryStringSnoc(ps: seq<Param>, p: Param)
    requires |ps| >= 1
    ensures QueryString(ps + [p]) == QueryString(ps) + "&" + Field(p)
  {
    var s := ps + [p];
    assert s[0] == ps[0];
    if |ps| == 1 {
      assert s[1..] == [p];
    } else {
      assert s[1..] == ps[1..] + [p];
      QueryStringSnoc(ps[1..], p);
    }
  }

  /** The text after the first '?' of a URL. */
  function UrlQuery(url: string): string
  {
    After(url, '?')
  }

  // ---------------------------------------------------------------------
  // Binance

  const BinanceBase: string := "https://api.binance.com"
  const SpotEndpoint: string := "/api/v3/account"
  const FundingEndpoint: string := "/sapi/v1/asset/get-funding-asset"

  function BinanceParams(timestampMs: nat): seq<Param>
  {
    [("timestamp", NatToString(timestampMs)), ("recvWindow", "60000")]
  }

  /** `f"timestamp={timestamp}&recvWindow=60000"` */
  function BinanceQuery(timestampMs: nat): string
  {
    QueryString(BinanceParams(timestampMs))
  }

  lemma BinanceQueryText(timestampMs: nat)
    ensures BinanceQuery(timestampMs) == "timestamp=" + NatToString(timestampMs) + "&recvWindow=60000"
  {
    var d := NatToString(timestampMs);
    assert BinanceParams(timestampMs)[1..] == [("recvWindow", "60000")];
    assert Field(("timestamp", d)) == "timestamp=" + d;
    assert Field(("recvWindow", "60000")) == "recvWindow=60000";
    assert "&" + "recvWindow=60000" == "&recvWindow=60000";
    assert ("timestamp=" + d) + "&" + "recvWindow=60000" == ("timestamp=" + d) + ("&" + "recvWindow=60000");
    assert QueryString(BinanceParams(timestampMs)[1..]) == "recvWindow=60000";
    assert QueryString(BinanceParams(timestampMs)) == ("timestamp=" + d) + "&" + "recvWindow=60000";
  }

  /** The signed URL of a Binance request: the query, then the HMAC of exactly that query. */
  function BinanceRequest(httpMethod: string, endpoint: string, apiKey: string, apiSecret: string,
                          timestampMs: nat, mac: HexMac): Request
  {
    var query := BinanceQuery(timestampMs);
    var signature := mac(apiSecret, query);
    Request(httpMethod, BinanceBase + endpoint + "?" + query + "&signature=" + signature, [("X-MBX-APIKEY", apiKey)])
  }

  /** `get_account_balance`: GET on the spot endpoint. */
  function SpotAccountRequest(apiKey: string, apiSecret: string, timestampMs: nat, mac: HexMac): Request
  {
    BinanceRequest("GET", SpotEndpoint, apiKey, apiSecret, timestampMs, mac)
  }

  /** `get_funding_wallet_balance`: POST on the funding endpoint. */
  function FundingAccountRequest(apiKey: string, apiSecret: string, timestampMs: nat, mac: HexMac): Request
  {
    BinanceRequest("POST", FundingEndpoint, apiKey, apiSecret, timestampMs, mac)
  }

  /** The exchange reads from the URL the timestamp, the fixed receive window of 60000 and a signature
      that is the HMAC, under the API secret, of the query before it; the timestamp reads back as the
      millisecond count that was sent. */
  lemma BinanceUrlQuery(httpMethod: string, endpoint: string, apiKey: string, apiSecret: string,
                        timestampMs: nat, mac: HexMac)
    requires '?' !in endpoint
    ensures UrlQuery(BinanceRequest(httpMethod, endpoint, apiKey, apiSecret, timestampMs, mac).url)
         == BinanceQuery(timestampMs) + "&signature=" + mac(apiSecret, BinanceQuery(timestampMs))
  {
    var head := BinanceBase + endpoint;
    var rest := BinanceQuery(timestampMs) + "&signature=" + mac(apiSecret, BinanceQuery(timestampMs));
    assert BinanceRequest(httpMethod, endpoint, apiKey, apiSecret, timestampMs, mac).url == head + ['?'] + rest;
    assert '?' !in head;
    BeforeAfter(head, '?', rest);
  }

  lemma SignedQueryFields(timestampMs: nat, signature: string)
    requires '&' !in signature
    ensures QueryFields(BinanceQuery(timestampMs) + "&signature=" + signature)
         == BinanceParams(timestampMs) + [("signature", signature)]
  {
    var d := NatToString(timestampMs);
    var ps := BinanceParams(timestampMs) + [("signature", signature)];
    assert '&' !in d by {
      forall k | 0 <= k < |d| ensures d[k] != '&' { assert IsDigit(d[k]); }
    }
    assert Unambiguous(ps);
    QueryStringSnoc(BinanceParams(timestampMs), ("signature", signature));
    assert Field(("signature", signature)) == "signature=" + signature;
    assert "&" + "signature=" == "&signature=";
    assert QueryString(ps) == BinanceQuery(timestampMs) + "&signature=" + signature;
    QueryStringRoundTrip(ps);
  }

  /** The exchange reads from the URL the timestamp, the fixed receive window of 60000 and a signature
      that is the HMAC, under the API secret, of the query before it; the timestamp reads back as the
      millisecond count that was sent. */
  lemma BinanceRequestReadsBack(httpMethod: string, endpoint: string, apiKey: string,
                                apiSecret: string, timestampMs: nat, mac: HexMac)
    requires '?' !in endpoint && '&' !in mac(apiSecret, BinanceQuery(timestampMs))
    ensures var r := BinanceRequest(httpMethod, endpoint, apiKey, apiSecret, timestampMs, mac);
      && QueryFields(UrlQuery(r.url)) == BinanceParams(timestampMs) + [("signature", mac(apiSecret, BinanceQuery(timestampMs)))]
      && ParseNat(QueryFields(UrlQuery(r.url))[0].1) == timestampMs
      && r.headers == [("X-MBX-APIKEY", apiKey)]
  {
    BinanceUrlQuery(httpMethod, endpoint, apiKey, apiSecret, timestampMs, mac);
    SignedQueryFields(timestampMs, mac(apiSecret, BinanceQuery(timestampMs)));
    ParseNatToString(timestampMs);
  }

  // ---------------------------------------------------------------------
  // OKX wallet API

  const OkxBase: string := "https://web3.okx.com"
  const OkxEndpoint: string := "/api/v5/wallet/asset/total-value-by-address"

  /** The request parameters in insertion order; the asset-type selector and the risk-token exclusion
      are fixed. */
  function OkxParams(address: string, chains: string): seq<Param>
  {
    [("address", address), ("chains", chains), ("assetType", "0"), ("excludeRiskToken", "true")]
  }

  /** The fixed tail of the query: asset type 0 (all assets), risk tokens excluded. */
  const OkxFixedQuery: string := "assetType=0&excludeRiskToken=true"

  function OkxQuery(address: string, chains: string): string
  {
    QueryString(OkxParams(address, chains))
  }

  lemma QueryStringCons(p: Param, ps: seq<Param>)
    requires |ps| >= 1
    ensures QueryString([p] + ps) == Field(p) + "&" + QueryString(ps)
  {
    assert ([p] + ps)[1..] == ps;
  }

  lemma OkxFixedFields()
    ensures Field(("assetType", "0")) == "assetType=0"
    ensures Field(("excludeRiskToken", "true")) == "excludeRiskToken=true"
  {
  }

  lemma OkxFixedJoin()
    ensures "assetType=0" + "&" + "excludeRiskToken=true" == OkxFixedQuery
  {
  }

  lemma OkxFixedTail()
    ensures QueryString([("assetType", "0"), ("excludeRiskToken", "true")]) == OkxFixedQuery
  {
    QueryStringCons(("assetType", "0"), [("excludeRiskToken", "true")]);
    OkxFixedFields();
    OkxFixedJoin();
  }

  /** The query is the two caller fields, then the fixed tail. */
  lemma OkxQueryShape(address: string, chains: string)
    ensures OkxQuery(address, chains)
         == Field(("address", address)) + "&" + (Field(("chains", chains)) + "&" + OkxFixedQuery)
  {
    var fixed := [("assetType", "0"), ("excludeRiskToken", "true")];
    OkxFixedTail();
    assert OkxParams(address, chains) == [("address", address)] + ([("chains", chains)] + fixed);
    QueryStringCons(("chains", chains), fixed);
    QueryStringCons(("address", address), [("chains", chains)] + fixed);
  }

  /** Regrouping of two `key=value` fields joined by a separator and followed by a tail. */
  lemma FieldsRegroup(k1: string, v1: string, amp: string, k2: string, v2: string, tail: string)
    ensures (k1 + v1) + amp + ((k2 + v2) + amp + tail) == k1 + v1 + (amp + k2) + v2 + amp + tail
  {
    ConcatAssoc(k1 + v1, amp, (k2 + v2) + amp + tail);
    ConcatAssoc(k2 + v2, amp, tail);
    ConcatAssoc(k2, v2, amp + tail);
    ConcatAssoc(amp, k2, v2 + (amp + tail));
    ConcatAssoc(k1 + v1, amp + k2, v2 + (amp + tail));
    ConcatAssoc(k1 + v1 + (amp + k2), v2, amp + tail);
    ConcatAssoc(k1 + v1 + (amp + k2) + v2, amp, tail);
  }

  lemma OkxKeyTexts()
    ensures "address" + "=" == "address=" && "&" + ("chains" + "=") == "&chains="
  {
  }

  lemma OkxQueryText(address: string, chains: string)
    ensures OkxQuery(address, chains)
         == "address=" + address + "&chains=" + chains + "&" + OkxFixedQuery
  {
    OkxQueryShape(address, chains);
    OkxKeyTexts();
    FieldsRegroup("address" + "=", address, "&", "chains" + "=", chains, OkxFixedQuery);
  }

  /** The request path that is both requested and signed. */
  function OkxRequestPath(address: string, chains: string): string
  {
    OkxEndpoint + "?" + OkxQuery(address, chains)
  }

  /** `get_okx_signature`'s message: `timestamp + method + request_path + body`. */
  function OkxSignMessage(timestamp: string, httpMethod: string, requestPath: string, body: string): string
  {
    timestamp + httpMethod + requestPath + body
  }

  /** `get_okx_signature`: base64 of the raw HMAC of the message under the secret key. */
  function OkxSignature(timestamp: string, httpMethod: string, requestPath: string, body: string,
                        secretKey: string, mac: RawMac, b64: Base64): string
  {
    b64(mac(secretKey, OkxSignMessage(timestamp, httpMethod, requestPath, body)))
  }

  /** One attempt's request in `get_okx_wallet_balance`. */
  function OkxWalletRequest(address: string, chains: string, projectId: string, apiKey: string, secretKey: string,
                            passphrase: string, timestampMs: nat, mac: RawMac, b64: Base64): Request
  {
    var ts := NatToString(timestampMs);
    var signature := OkxSignature(ts, "GET", OkxRequestPath(address, chains), "", secretKey, mac, b64);
    Request("GET", OkxBase + OkxRequestPath(address, chains),
            [("OK-ACCESS-PROJECT", projectId), ("OK-ACCESS-KEY", apiKey), ("OK-ACCESS-SIGN", signature),
             ("OK-ACCESS-PASSPHRASE", passphrase), ("OK-ACCESS-TIMESTAMP", ts), ("Content-Type", "application/json")])
  }

  lemma OkxMessageText(timestampMs: nat, address: string, chains: string)
    ensures OkxSignMessage(NatToString(timestampMs), "GET", OkxRequestPath(address, chains), "")
         == NatToString(timestampMs) + "GET" + OkxEndpoint + "?" + "address=" + address + "&chains=" + chains
            + "&" + OkxFixedQuery + ""
  {
    OkxQueryText(address, chains);
  }

  lemma OkxPathNoQuestionMark()
    ensures '?' !in OkxBase + OkxEndpoint
  {
    assert '?' !in OkxBase;
    assert '?' !in OkxEndpoint;
  }

  lemma OkxUrlQuery(address: string, chains: string)
    requires '?' !in address && '?' !in chains
    ensures UrlQuery(OkxBase + OkxRequestPath(address, chains)) == OkxQuery(address, chains)
  {
    var q := OkxQuery(address, chains);
    var head := OkxBase + OkxEndpoint;
    OkxPathNoQuestionMark();
    assert OkxBase + OkxRequestPath(address, chains) == head + ['?'] + q;
    BeforeAfter(head, '?', q);
  }

  lemma OkxParamsUnambiguous(address: string, chains: string)
    requires '&' !in address && '&' !in chains
    ensures Unambiguous(OkxParams(address, chains))
  {
    var ps := OkxParams(address, chains);
    assert '&' !in "address" && '=' !in "address" && '&' !in "chains" && '=' !in "chains";
    assert '&' !in "assetType" && '=' !in "assetType" && '&' !in "0";
    assert '&' !in "excludeRiskToken" && '=' !in "excludeRiskToken" && '&' !in "true";
    forall i | 0 <= i < |ps| ensures '&' !in ps[i].0 && '=' !in ps[i].0 && '&' !in ps[i].1 {
      assert i == 0 || i == 1 || i == 2 || i == 3;
    }
  }

  /** What is signed is the millisecond timestamp, "GET", the endpoint and the literal query, with an
      empty body; and the signed path is the one requested, so the provider reads back the same
      parameters it was sent. */
  lemma OkxRequestSignsWhatItSends(address: string, chains: string, projectId: string, apiKey: string,
                                   secretKey: string, passphrase: string, timestampMs: nat, mac: RawMac, b64: Base64)
    requires '&' !in address && '&' !in chains && '?' !in address && '?' !in chains
    ensures var r := OkxWalletRequest(address, chains, projectId, apiKey, secretKey, passphrase, timestampMs, mac, b64);
      && r.headers[2] == ("OK-ACCESS-SIGN", b64(mac(secretKey,
           NatToString(timestampMs) + "GET" + OkxEndpoint + "?" + "address=" + address + "&chains=" + chains
           + "&" + OkxFixedQuery + "")))
      && r.headers[4] == ("OK-ACCESS-TIMESTAMP", NatToString(timestampMs))
      && QueryFields(UrlQuery(r.url)) == OkxParams(address, chains)
  {
    OkxMessageText(timestampMs, address, chains);
    OkxUrlQuery(address, chains);
    OkxParamsUnambiguous(address, chains);
    QueryStringRoundTrip(OkxParams(address, chains));
  }
}
