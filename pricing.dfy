/** Normalisation of exchange holdings into USDT: `convert_to_usdt` (spot) and `convert_funding_to_usdt`
    (funding). Stable coins count 1:1; any other asset is priced through its direct USDT pair or, failing
    that, bridged through its BTC pair and BTCUSDT; an asset with neither is dropped from the sum. */
module Pricing {
  import opened Wrappers

  /** One entry of a balance list, with `free` and `locked` already read as numbers. */
  datatype Holding = Holding(asset: string, free: real, locked: real)

  /** The two sub-accounts of an exchange account. */
  datatype SubAccount = Spot | Funding

  /** A ticker snapshot: trading-pair symbol to price. */
  type Prices = map<string, real>

  /** Counted 1:1 in the first pass of both conversions. */
  const StableCoins: seq<string> := ["USDT", "BUSD", "USDC"]

  /** The assets the second (priced) pass skips. The spot pass skips only USDT and BUSD, so USDC,
      already counted 1:1, is priced a second time there. */
  function PricedExclusions(w: SubAccount): seq<string>
  {
    match w
    case Spot => ["USDT", "BUSD"]
    case Funding => StableCoins
  }

  /** The amount a holding contributes: `free + locked` on spot, `free` alone on funding. */
  function Quantity(h: Holding, w: SubAccount): real
  {
    match w
    case Spot => h.free + h.locked
    case Funding => h.free
  }

  /** The USDT value of `q` units of `asset`: direct pair, else BTC bridge, else unpriced. */
  function PricedValue(q: real, asset: string, p: Prices): Option<real>
  {
    if asset + "USDT" in p then Some(q * p[asset + "USDT"])
    else if asset + "BTC" in p && "BTCUSDT" in p then Some(q * p[asset + "BTC"] * p["BTCUSDT"])
    else None
  }

  /** What the first pass adds for one holding. */
  function StablePart(h: Holding, w: SubAccount): real
  {
    var q := Quantity(h, w);
    if q > 0.0 && h.asset in StableCoins then q else 0.0
  }

  /** What the priced pass adds for one holding. */
  function PricedPart(h: Holding, w: SubAccount, p: Prices): real
  {
    var q := Quantity(h, w);
    if q > 0.0 && h.asset !in PricedExclusions(w) then PricedValue(q, h.asset, p).GetOr(0.0) else 0.0
  }

  function StableTotal(hs: seq<Holding>, w: SubAccount): real
  {
    if hs == [] then 0.0 else StableTotal(hs[..|hs| - 1], w) + StablePart(hs[|hs| - 1], w)
  }

  function PricedTotal(hs: seq<Holding>, w: SubAccount, p: Prices): real
  {
    if hs == [] then 0.0 else PricedTotal(hs[..|hs| - 1], w, p) + PricedPart(hs[|hs| - 1], w, p)
  }

  /** A positive holding that is not a stable coin: its USDT pair goes into `symbols_needed`. */
  predicate NeedsPrice(h: Holding, w: SubAccount)
  {
    Quantity(h, w) > 0.0 && h.asset !in StableCoins
  }

  /** The ticker is requested only when some holding needs a price (`symbols_needed` is non-empty). */
  predicate NeedsPrices(hs: seq<Holding>, w: SubAccount)
  {
    hs != [] && (NeedsPrices(hs[..|hs| - 1], w) || NeedsPrice(hs[|hs| - 1], w))
  }

  lemma {:induction false} NeedsPricesMeaning(hs: seq<Holding>, w: SubAccount)
    ensures NeedsPrices(hs, w) <==> exists i :: 0 <= i < |hs| && NeedsPrice(hs[i], w)
  {
    if hs != [] {
      var init := hs[..|hs| - 1];
      NeedsPricesMeaning(init, w);
      if exists i :: 0 <= i < |init| && NeedsPrice(init[i], w) {
        var i :| 0 <= i < |init| && NeedsPrice(init[i], w);
        assert hs[i] == init[i];
      }
      if exists i :: 0 <= i < |hs| && NeedsPrice(hs[i], w) {
        var i :| 0 <= i < |hs| && NeedsPrice(hs[i], w);
        if i < |init| {
          assert init[i] == hs[i];
        }
      }
    }
  }

  /** The conversion result. `snapshot == None` stands for a ticker request that raised or did not
      answer 200: then only the stable coins count. */
  function ToUsdt(hs: seq<Holding>, w: SubAccount, snapshot: Option<Prices>): real
  {
    StableTotal(hs, w) + if NeedsPrices(hs, w) && snapshot.Some? then PricedTotal(hs, w, snapshot.value) else 0.0
  }

  lemma NeedsPricesPrefix(hs: seq<Holding>, w: SubAccount, i: nat)
    requires i < |hs|
    ensures NeedsPrices(hs[..i + 1], w) == (NeedsPrices(hs[..i], w) || NeedsPrice(hs[i], w))
  {
    assert hs[..i + 1][..i] == hs[..i];
  }

  lemma StableTotalStep(hs: seq<Holding>, w: SubAccount, i: nat)
    requires i < |hs|
    ensures StableTotal(hs[..i + 1], w) == StableTotal(hs[..i], w) + StablePart(hs[i], w)
  {
    assert hs[..i + 1][..i] == hs[..i];
  }

  lemma PricedTotalStep(hs: seq<Holding>, w: SubAccount, p: Prices, i: nat)
    requires i < |hs|
    ensures PricedTotal(hs[..i + 1], w, p) == PricedTotal(hs[..i], w, p) + PricedPart(hs[i], w, p)
  {
    assert hs[..i + 1][..i] == hs[..i];
  }

  /** `convert_to_usdt`: the spot total over ALL balances (no dust filter). `fetched` tells whether the
      ticker was requested. */
  method ConvertToUsdt(balances: seq<Holding>, snapshot: Option<Prices>) returns (total: real, fetched: bool)
    ensures fetched <==> exists i :: 0 <= i < |balances| && NeedsPrice(balances[i], Spot)
    ensures !fetched || snapshot.None? ==> total == StableTotal(balances, Spot)
    ensures total == ToUsdt(balances, Spot, snapshot)
  {
    var symbolsNeeded;
    total, symbolsNeeded := SpotStablePass(balances);
    NeedsPricesMeaning(balances, Spot);
    fetched := |symbolsNeeded| > 0;
    if fetched && snapshot.Some? {
      total := SpotPricedPass(balances, snapshot.value, total);
    }
  }

  /** The first loop of `convert_to_usdt`: stable coins summed, the other positive assets' pairs
      collected. */
  method SpotStablePass(balances: seq<Holding>) returns (total: real, symbolsNeeded: seq<string>)
    ensures total == StableTotal(balances, Spot)
    ensures (|symbolsNeeded| > 0) == NeedsPrices(balances, Spot)
  {
    total := 0.0;
    symbolsNeeded := [];
    var i := 0;
    while i < |balances|
      invariant 0 <= i <= |balances|
      invariant total == StableTotal(balances[..i], Spot)
      invariant (|symbolsNeeded| > 0) == NeedsPrices(balances[..i], Spot)
    {
      var balance := balances[i];
      var totalBalance := balance.free + balance.locked;
      StableTotalStep(balances, Spot, i);
      NeedsPricesPrefix(balances, Spot, i);
      if totalBalance > 0.0 {
        if balance.asset == "USDT" {
          total := total + totalBalance;
        } else if balance.asset == "BUSD" {
          total := total + totalBalance;
        } else if balance.asset == "USDC" {
          total := total + totalBalance;
        } else {
          symbolsNeeded := symbolsNeeded + [balance.asset + "USDT"];
        }
      }
      i := i + 1;
    }
    assert balances[..i] == balances;
  }

  /** The second loop of `convert_to_usdt`, adding the priced assets to `start`. */
  method SpotPricedPass(balances: seq<Holding>, priceDict: Prices, start: real) returns (total: real)
    ensures total == start + PricedTotal(balances, Spot, priceDict)
  {
    total := start;
    var j := 0;
    while j < |balances|
      invariant 0 <= j <= |balances|
      invariant total == start + PricedTotal(balances[..j], Spot, priceDict)
    {
      var balance := balances[j];
      var totalBalance := balance.free + balance.locked;
      PricedTotalStep(balances, Spot, priceDict, j);
      if totalBalance > 0.0 && balance.asset !in ["USDT", "BUSD"] {
        var symbol := balance.asset + "USDT";
        if symbol in priceDict {
          total := total + totalBalance * priceDict[symbol];
        } else {
          var btcSymbol := balance.asset + "BTC";
          if btcSymbol in priceDict && "BTCUSDT" in priceDict {
            var btcValue := totalBalance * priceDict[btcSymbol];
            total := total + btcValue * priceDict["BTCUSDT"];
          }
        }
      }
      j := j + 1;
    }
    assert balances[..j] == balances;
  }

  /** `convert_funding_to_usdt`: the same two passes over the funding list, counting `free` only and
      skipping all three stable coins in the priced pass. */
  method ConvertFundingToUsdt(fundingAssets: seq<Holding>, snapshot: Option<Prices>) returns (total: real, fetched: bool)
    ensures fetched <==> exists i :: 0 <= i < |fundingAssets| && NeedsPrice(fundingAssets[i], Funding)
    ensures !fetched || snapshot.None? ==> total == StableTotal(fundingAssets, Funding)
    ensures total == ToUsdt(fundingAssets, Funding, snapshot)
  {
    var symbolsNeeded;
    total, symbolsNeeded := FundingStablePass(fundingAssets);
    NeedsPricesMeaning(fundingAssets, Funding);
    fetched := |symbolsNeeded| > 0;
    if fetched && snapshot.Some? {
      total := FundingPricedPass(fundingAssets, snapshot.value, total);
    }
  }

  /** The first loop of `convert_funding_to_usdt`. */
  method FundingStablePass(fundingAssets: seq<Holding>) returns (total: real, symbolsNeeded: seq<string>)
    ensures total == StableTotal(fundingAssets, Funding)
    ensures (|symbolsNeeded| > 0) == NeedsPrices(fundingAssets, Funding)
  {
    total := 0.0;
    symbolsNeeded := [];
    var i := 0;
    while i < |fundingAssets|
      invariant 0 <= i <= |fundingAssets|
      invariant total == StableTotal(fundingAssets[..i], Funding)
      invariant (|symbolsNeeded| > 0) == NeedsPrices(fundingAssets[..i], Funding)
    {
      var asset := fundingAssets[i];
      var free := asset.free;
      StableTotalStep(fundingAssets, Funding, i);
      NeedsPricesPrefix(fundingAssets, Funding, i);
      if free > 0.0 {
        if asset.asset == "USDT" {
          total := total + free;
        } else if asset.asset in ["BUSD", "USDC"] {
          total := total + free;
        } else {
          symbolsNeeded := symbolsNeeded + [asset.asset + "USDT"];
        }
      }
      i := i + 1;
    }
    assert fundingAssets[..i] == fundingAssets;
  }

  /** The second loop of `convert_funding_to_usdt`, adding the priced assets to `start`. */
  method FundingPricedPass(fundingAssets: seq<Holding>, priceDict: Prices, start: real) returns (total: real)
    ensures total == start + PricedTotal(fundingAssets, Funding, priceDict)
  {
    total := start;
    var j := 0;
    while j < |fundingAssets|
      invariant 0 <= j <= |fundingAssets|
      invariant total == start + PricedTotal(fundingAssets[..j], Funding, priceDict)
    {
      var asset := fundingAssets[j];
      var free := asset.free;
      PricedTotalStep(fundingAssets, Funding, priceDict, j);
      if free > 0.0 && asset.asset !in ["USDT", "BUSD", "USDC"] {
        var symbol := asset.asset + "USDT";
        if symbol in priceDict {
          total := total + free * priceDict[symbol];
        } else {
          var btcSymbol := asset.asset + "BTC";
          if btcSymbol in priceDict && "BTCUSDT" in priceDict {
            var btcValue := free * priceDict[btcSymbol];
            total := total + btcValue * priceDict["BTCUSDT"];
          }
        }
      }
      j := j + 1;
    }
    assert fundingAssets[..j] == fundingAssets;
  }

  // ---------------------------------------------------------------------
  // Reference definitions: the value of each holding on its own

  /** The funding value of one holding, case by case. */
  function FundingValue(h: Holding, p: Prices): real
  {
    if h.free <= 0.0 then 0.0
    else if h.asset == "USDT" || h.asset == "BUSD" || h.asset == "USDC" then h.free
    else if h.asset + "USDT" in p then h.free * p[h.asset + "USDT"]
    else if h.asset + "BTC" in p && "BTCUSDT" in p then h.free * p[h.asset + "BTC"] * p["BTCUSDT"]
    else 0.0
  }

  /** The spot value of one holding as the two passes compute it: USDC counts 1:1 and then once more
      at its own price. */
  function SpotValue(h: Holding, p: Prices): real
  {
    var q := h.free + h.locked;
    var priced :=
      if h.asset + "USDT" in p then q * p[h.asset + "USDT"]
      else if h.asset + "BTC" in p && "BTCUSDT" in p then q * p[h.asset + "BTC"] * p["BTCUSDT"]
      else 0.0;
    if q <= 0.0 then 0.0
    else if h.asset == "USDT" || h.asset == "BUSD" then q
    else if h.asset == "USDC" then q + priced
    else priced
  }

  function FundingReference(hs: seq<Holding>, p: Prices): real
  {
    if hs == [] then 0.0 else FundingReference(hs[..|hs| - 1], p) + FundingValue(hs[|hs| - 1], p)
  }

  function SpotReference(hs: seq<Holding>, p: Prices): real
  {
    if hs == [] then 0.0 else SpotReference(hs[..|hs| - 1], p) + SpotValue(hs[|hs| - 1], p)
  }

  /** For one funding holding, what the two passes add is its funding value. */
  lemma FundingPartsAddUp(h: Holding, p: Prices)
    ensures StablePart(h, Funding) + PricedPart(h, Funding, p) == FundingValue(h, p)
  {
  }

  /** For one spot holding, what the two passes add is its spot value. */
  lemma SpotPartsAddUp(h: Holding, p: Prices)
    ensures StablePart(h, Spot) + PricedPart(h, Spot, p) == SpotValue(h, p)
  {
  }

  lemma {:induction false} PassesAddUpFunding(hs: seq<Holding>, p: Prices)
    ensures StableTotal(hs, Funding) + PricedTotal(hs, Funding, p) == FundingReference(hs, p)
  {
    if hs != [] {
      var init, last := hs[..|hs| - 1], hs[|hs| - 1];
      PassesAddUpFunding(init, p);
      FundingPartsAddUp(last, p);
      assert StableTotal(hs, Funding) == StableTotal(init, Funding) + StablePart(last, Funding);
      assert PricedTotal(hs, Funding, p) == PricedTotal(init, Funding, p) + PricedPart(last, Funding, p);
      assert FundingReference(hs, p) == FundingReference(init, p) + FundingValue(last, p);
    }
  }

  lemma {:induction false} PassesAddUpSpot(hs: seq<Holding>, p: Prices)
    ensures StableTotal(hs, Spot) + PricedTotal(hs, Spot, p) == SpotReference(hs, p)
  {
    if hs != [] {
      var init, last := hs[..|hs| - 1], hs[|hs| - 1];
      PassesAddUpSpot(init, p);
      SpotPartsAddUp(last, p);
      assert StableTotal(hs, Spot) == StableTotal(init, Spot) + StablePart(last, Spot);
      assert PricedTotal(hs, Spot, p) == PricedTotal(init, Spot, p) + PricedPart(last, Spot, p);
      assert SpotReference(hs, p) == SpotReference(init, p) + SpotValue(last, p);
    }
  }

  /** Without a positive non-stable funding holding there is nothing for the priced pass to add. */
  lemma {:induction false} FundingPricedPassEmpty(hs: seq<Holding>, p: Prices)
    requires !NeedsPrices(hs, Funding)
    ensures PricedTotal(hs, Funding, p) == 0.0
  {
    if hs != [] {
      var init := hs[..|hs| - 1];
      FundingPricedPassEmpty(init, p);
    }
  }

  /** Funding total with a snapshot: the sum over holdings with `free > 0` of `free` for a stable coin,
      else `free` times the direct price, else `free` times the bridged price, else nothing. */
  lemma FundingTotalPerHolding(hs: seq<Holding>, p: Prices)
    ensures ToUsdt(hs, Funding, Some(p)) == FundingReference(hs, p)
  {
    PassesAddUpFunding(hs, p);
    if !NeedsPrices(hs, Funding) {
      FundingPricedPassEmpty(hs, p);
    }
  }

  /** Spot total when the ticker is requested and answers: every holding at its spot value, that is
      with each USDC counted twice. */
  lemma SpotTotalPerHolding(hs: seq<Holding>, p: Prices)
    requires NeedsPrices(hs, Spot)
    ensures ToUsdt(hs, Spot, Some(p)) == SpotReference(hs, p)
  {
    PassesAddUpSpot(hs, p);
  }

  /** A funding asset with neither a direct nor a bridge price leaves the total unchanged. */
  lemma FundingUnpricedIgnored(hs: seq<Holding>, h: Holding, p: Prices)
    requires h.asset !in StableCoins
    requires h.asset + "USDT" !in p && !(h.asset + "BTC" in p && "BTCUSDT" in p)
    ensures ToUsdt(hs + [h], Funding, Some(p)) == ToUsdt(hs, Funding, Some(p))
  {
    FundingTotalPerHolding(hs + [h], p);
    FundingTotalPerHolding(hs, p);
    assert (hs + [h])[..|hs + [h]| - 1] == hs;
  }

  /** With non-negative prices every total is non-negative: only positive quantities are counted. */
  lemma {:induction false} TotalsNonNegative(hs: seq<Holding>, w: SubAccount, p: Prices)
    requires forall s :: s in p ==> p[s] >= 0.0
    ensures StableTotal(hs, w) >= 0.0 && PricedTotal(hs, w, p) >= 0.0
  {
    if hs != [] {
      TotalsNonNegative(hs[..|hs| - 1], w, p);
      var h := hs[|hs| - 1];
      var q := Quantity(h, w);
      if q > 0.0 && h.asset + "BTC" in p && "BTCUSDT" in p {
        assert q * p[h.asset + "BTC"] >= 0.0;
      }
    }
  }

  lemma ToUsdtNonNegative(hs: seq<Holding>, w: SubAccount, snapshot: Option<Prices>)
    requires snapshot.Some? ==> forall s :: s in snapshot.value ==> snapshot.value[s] >= 0.0
    ensures ToUsdt(hs, w, snapshot) >= 0.0
  {
    TotalsNonNegative(hs, w, if snapshot.Some? then snapshot.value else map[]);
  }

  // ---------------------------------------------------------------------
  // Worked cases

  /** 100 USDT and 2 ETH at 3000 make 6100 on the spot account. */
  lemma SpotExample()
    ensures ToUsdt([Holding("USDT", 100.0, 0.0), Holding("ETH", 2.0, 0.0)], Spot, Some(map["ETHUSDT" := 3000.0]))
         == 6100.0
  {
    var hs := [Holding("USDT", 100.0, 0.0), Holding("ETH", 2.0, 0.0)];
    var p := map["ETHUSDT" := 3000.0];
    assert NeedsPrices(hs, Spot) by { assert hs[1].asset !in StableCoins; }
    SpotTotalPerHolding(hs, p);
    assert hs[..1] == [hs[0]] && hs[..1][..0] == [];
    assert "ETH" + "USDT" == "ETHUSDT";
    assert SpotValue(hs[0], p) == 100.0;
    assert SpotValue(hs[1], p) == 6000.0;
  }

  /** The spot path counts USDC twice once a price fetch happens: 10 USDC next to 1 ETH at 3000 with
      USDCUSDT at 1 give 3020, not 3010. */
  lemma SpotUsdcCountedTwice()
    ensures ToUsdt([Holding("USDC", 10.0, 0.0), Holding("ETH", 1.0, 0.0)], Spot,
                   Some(map["ETHUSDT" := 3000.0, "USDCUSDT" := 1.0])) == 3020.0
  {
    var hs := [Holding("USDC", 10.0, 0.0), Holding("ETH", 1.0, 0.0)];
    var p := map["ETHUSDT" := 3000.0, "USDCUSDT" := 1.0];
    assert NeedsPrices(hs, Spot) by { assert hs[1].asset !in StableCoins; }
    SpotTotalPerHolding(hs, p);
    assert hs[..1] == [hs[0]] && hs[..1][..0] == [];
    assert "ETH" + "USDT" == "ETHUSDT" && "USDC" + "USDT" == "USDCUSDT";
    assert SpotValue(hs[0], p) == 20.0;
    assert SpotValue(hs[1], p) == 3000.0;
  }

  /** Because of the double count, adding an unpriced spot asset can change the spot total: it
      triggers the fetch that prices the USDC already counted. */
  lemma SpotUnpricedAssetChangesTotal()
    ensures ToUsdt([Holding("USDC", 10.0, 0.0)], Spot, Some(map["USDCUSDT" := 1.0])) == 10.0
    ensures ToUsdt([Holding("USDC", 10.0, 0.0), Holding("FOO", 1.0, 0.0)], Spot, Some(map["USDCUSDT" := 1.0])) == 20.0
  {
    var one := [Holding("USDC", 10.0, 0.0)];
    var two := [Holding("USDC", 10.0, 0.0), Holding("FOO", 1.0, 0.0)];
    var p := map["USDCUSDT" := 1.0];
    assert !NeedsPrices(one, Spot);
    assert one[..0] == [];
    assert NeedsPrices(two, Spot) by { assert two[1].asset !in StableCoins; }
    SpotTotalPerHolding(two, p);
    assert two[..1] == one && one[..0] == [];
    assert "USDC" + "USDT" == "USDCUSDT";
    assert "FOO" + "USDT" != "USDCUSDT" && "FOO" + "BTC" != "USDCUSDT";
    assert SpotValue(two[0], p) == 20.0;
    assert SpotValue(two[1], p) == 0.0;
  }
}
