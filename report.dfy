/** The pieces of `format_user_assets_message` that choose what is shown: the main-asset list, the
    chain names of a wallet and the masked address. */
module Report {
  import opened Wrappers
  import opened Text
  import opened Pricing
  import opened Sorting
  import opened Assets
  import Seqs

  /** At most this many main assets are listed ... */
  const TopAssetCount: nat := 8
  /** ... and only those holding more than one unit. */
  const MinShownTotal: real := 1.0

  /** `sort(key=lambda x: x['total'], reverse=True)`: larger totals first. */
  predicate ByTotalDescending(a: Entry, b: Entry)
  {
    a.total >= b.total
  }

  lemma ByTotalDescendingIsPreorder()
    ensures TotalPreorder(ByTotalDescending)
  {
  }

  /** `[b for b in s if b['total'] > 1]` */
  function AboveOne(s: seq<Entry>): (r: seq<Entry>)
    ensures |r| <= |s|
    ensures forall i :: 0 <= i < |r| ==> r[i].total > MinShownTotal
  {
    if s == [] then []
    else
      var last := s[|s| - 1];
      AboveOne(s[..|s| - 1]) + if last.total > MinShownTotal then [last] else []
  }

  /** The filter keeps exactly the entries above one unit, each as often as it occurs. */
  lemma {:induction false} AboveOneMembers(s: seq<Entry>)
    ensures multiset(AboveOne(s)) <= multiset(s)
    ensures forall e :: e in s && e.total > MinShownTotal ==> e in AboveOne(s)
  {
    if s != [] {
      var init, last := s[..|s| - 1], s[|s| - 1];
      assert s == init + [last];
      AboveOneMembers(init);
      forall e | e in s && e.total > MinShownTotal ensures e in AboveOne(s) {
        if e != last {
          assert e in init;
        }
      }
    }
  }

  /** `SortedBy(s, ByTotalDescending)`, spelled out on the totals. */
  predicate TotalsDescending(s: seq<Entry>)
  {
    forall i, j :: 0 <= i < j < |s| ==> s[i].total >= s[j].total
  }

  lemma {:induction false} AboveOneSorted(s: seq<Entry>)
    requires TotalsDescending(s)
    ensures TotalsDescending(AboveOne(s))
  {
    if s != [] {
      var init, last := s[..|s| - 1], s[|s| - 1];
      assert TotalsDescending(init) by {
        assert forall i :: 0 <= i < |init| ==> init[i] == s[i];
      }
      AboveOneSorted(init);
      if last.total > MinShownTotal {
        assert forall i :: 0 <= i < |init| ==> init[i].total >= last.total by {
          assert forall i :: 0 <= i < |init| ==> init[i] == s[i];
        }
        AboveOneAtLeast(init, last.total);
        AppendSmallest(AboveOne(init), last);
      }
    }
  }

  /** The filter keeps a lower bound of its input. */
  lemma {:induction false} AboveOneAtLeast(s: seq<Entry>, t: real)
    requires forall i :: 0 <= i < |s| ==> s[i].total >= t
    ensures forall i :: 0 <= i < |AboveOne(s)| ==> AboveOne(s)[i].total >= t
  {
    if s != [] {
      var init := s[..|s| - 1];
      assert forall i :: 0 <= i < |init| ==> init[i] == s[i];
      AboveOneAtLeast(init, t);
    }
  }

  /** Appending an entry no larger than any other keeps the totals descending. */
  lemma AppendSmallest(r: seq<Entry>, last: Entry)
    requires TotalsDescending(r)
    requires forall i :: 0 <= i < |r| ==> r[i].total >= last.total
    ensures TotalsDescending(r + [last])
  {
    var r' := r + [last];
    forall i, j | 0 <= i < j < |r'| ensures r'[i].total >= r'[j].total {
      assert r'[i] == r[i];
      if j < |r| {
        assert r'[j] == r[j];
      }
    }
  }

  lemma {:induction false} AboveOneKeepsAll(s: seq<Entry>)
    requires forall i :: 0 <= i < |s| ==> s[i].total > MinShownTotal
    ensures AboveOne(s) == s
  {
    if s != [] {
      var init := s[..|s| - 1];
      Seqs.InitLast(s);
      AboveOneKeepsAll(init);
    }
  }

  /** `[b for b in s[:8] if b['total'] > 1]` */
  function TopOf(sorted: seq<Entry>): seq<Entry>
  {
    AboveOne(sorted[..if |sorted| < TopAssetCount then |sorted| else TopAssetCount])
  }

  /** The main assets: the first eight after the descending sort that are above one unit. */
  function TopAssets(balances: seq<Entry>): seq<Entry>
  {
    TopOf(SortBy(balances, ByTotalDescending))
  }

  lemma TopOfShape(sorted: seq<Entry>)
    requires TotalsDescending(sorted)
    ensures var r := TopOf(sorted);
      && |r| <= TopAssetCount
      && multiset(r) <= multiset(sorted)
      && TotalsDescending(r)
  {
    var n := if |sorted| < TopAssetCount then |sorted| else TopAssetCount;
    var slice := sorted[..n];
    assert sorted == slice + sorted[n..];
    assert TotalsDescending(slice) by {
      assert forall i :: 0 <= i < n ==> slice[i] == sorted[i];
    }
    AboveOneSorted(slice);
    AboveOneMembers(slice);
  }

  lemma TopOfComplete(sorted: seq<Entry>, k: nat)
    requires TotalsDescending(sorted)
    requires k < |sorted| && sorted[k].total > MinShownTotal && sorted[k] !in TopOf(sorted)
    ensures |TopOf(sorted)| == TopAssetCount
    ensures forall x :: x in TopOf(sorted) ==> x.total >= sorted[k].total
  {
    var n := if |sorted| < TopAssetCount then |sorted| else TopAssetCount;
    var slice := sorted[..n];
    AboveOneMembers(slice);
    if k >= n {
      assert forall i :: 0 <= i < |slice| ==> slice[i] == sorted[i];
      AboveOneKeepsAll(slice);
    }
  }

  lemma SortedByTotals(s: seq<Entry>)
    requires SortedBy(s, ByTotalDescending)
    ensures TotalsDescending(s)
  {
    forall i, j | 0 <= i < j < |s| ensures s[i].total >= s[j].total {
      assert ByTotalDescending(s[i], s[j]);
    }
  }

  /** The main-asset list is at most eight entries of the balance list, each above one unit, largest
      first; an entry above one unit is left out only when eight entries at least as large are shown. */
  lemma TopAssetsChoice(balances: seq<Entry>, e: Entry)
    ensures var r := TopAssets(balances);
      && |r| <= TopAssetCount
      && (forall i :: 0 <= i < |r| ==> r[i].total > MinShownTotal)
      && multiset(r) <= multiset(balances)
      && TotalsDescending(r)
    ensures var r := TopAssets(balances);
      e in balances && e.total > MinShownTotal && e !in r ==>
        |r| == TopAssetCount && forall x :: x in r ==> x.total >= e.total
  {
    ByTotalDescendingIsPreorder();
    var sorted := SortBy(balances, ByTotalDescending);
    SortBySorted(balances, ByTotalDescending);
    SortedByTotals(sorted);
    TopOfShape(sorted);
    if e in balances && e.total > MinShownTotal && e !in TopOf(sorted) {
      assert e in multiset(sorted);
      var k :| 0 <= k < |sorted| && sorted[k] == e;
      TopOfComplete(sorted, k);
    }
  }

  // ---------------------------------------------------------------------
  // Chain names

  /** The chain-id table of the wallet section. */
  const ChainNames: map<string, string> := map[
    "1" := "Ethereum", "56" := "BSC", "137" := "Polygon", "43114" := "Avalanche",
    "250" := "Fantom", "42161" := "Arbitrum", "10" := "Optimism"]

  /** `chain_names.get(id, f'Chain-{id}')` */
  function ChainName(id: string): string
  {
    if id in ChainNames then ChainNames[id] else "Chain-" + id
  }

  /** An id is shown with the `Chain-` prefix exactly when the table does not know it. */
  lemma ChainNameFallback(id: string)
    ensures StartsWith(ChainName(id), "Chain-") <==> id !in ChainNames
    ensures id !in ChainNames ==> ChainName(id)[6..] == id
  {
    if id in ChainNames {
      var name := ChainNames[id];
      assert name in ["Ethereum", "BSC", "Polygon", "Avalanche", "Fantom", "Arbitrum", "Optimism"];
      assert |name| > 0 && name[0] != 'C';
    } else {
      assert ("Chain-" + id)[..6] == "Chain-";
    }
  }

  /** One name per comma-separated field, each field stripped first. */
  function FieldNames(fields: seq<string>): (r: seq<string>)
    ensures |r| == |fields|
  {
    if fields == [] then [] else [ChainName(Strip(fields[0]))] + FieldNames(fields[1..])
  }

  /** `', '.join(... for chain in chains.split(','))` */
  function ChainDisplay(chains: string): string
  {
    Join(FieldNames(Split(chains, ',')), ", ")
  }

  /** A chain list with `n` commas names `n + 1` chains. */
  lemma ChainDisplayFieldCount(chains: string)
    ensures |FieldNames(Split(chains, ','))| == CountChar(chains, ',') + 1
  {
    SplitCount(chains, ',');
  }

  lemma ChainDisplayKnown()
    ensures ChainDisplay("1") == "Ethereum"
  {
    SplitNoSeparator("1", ',');
    assert StripLeft("1") == "1" && StripRight("1") == "1";
  }

  /** Two comma-separated ids: each is stripped and named, and the names are joined with ", ". */
  lemma ChainDisplayTwo(x: string, y: string)
    requires ',' !in x && ',' !in y
    ensures ChainDisplay(x + [','] + y) == ChainName(Strip(x)) + ", " + ChainName(Strip(y))
  {
    SplitNoSeparator(y, ',');
    SplitAtSeparator(x, ',', y);
    assert Split(x + [','] + y, ',') == [x, y];
    FieldNamesTwo(x, y);
    JoinTwo(ChainName(Strip(x)), ChainName(Strip(y)), ", ");
  }

  lemma FieldNamesTwo(x: string, y: string)
    ensures FieldNames([x, y]) == [ChainName(Strip(x)), ChainName(Strip(y))]
  {
    var a, b := ChainName(Strip(x)), ChainName(Strip(y));
    assert [y][1..] == [];
    assert FieldNames([y]) == [b];
    assert [x, y][1..] == [y];
    assert FieldNames([x, y]) == [a] + FieldNames([y]);
    Seqs.PairConcat(a, b);
  }

  /** Fields are stripped before the lookup: `"1, 56"` names Ethereum and BSC. */
  lemma ChainDisplayStripped(x: string, y: string)
    requires ',' !in x && ',' !in y
    requires forall i :: 0 <= i < |x| ==> !IsSpace(x[i])
    requires forall i :: 0 <= i < |y| ==> !IsSpace(y[i])
    ensures ChainDisplay(x + ", " + y) == ChainName(x) + ", " + ChainName(y)
  {
    assert x + ", " + y == x + [','] + (" " + y);
    assert ',' !in " " + y;
    ChainDisplayTwo(x, " " + y);
    StripNoSpace(x);
    StripLeadingSpace(y);
  }

  lemma ChainDisplayUnknown()
    ensures ChainDisplay("999") == "Chain-999"
  {
    SplitNoSeparator("999", ',');
    assert StripLeft("999") == "999" && StripRight("999") == "999";
  }

  // ---------------------------------------------------------------------
  // Address masking

  function Min(a: int, b: int): int
  {
    if a < b then a else b
  }

  /** `address[:6] + "..." + address[-4:]` with Python's slice bounds: short addresses are shown whole
      on both sides. */
  function MaskAddress(a: string): (r: string)
    ensures |r| == Min(|a|, 6) + 3 + Min(|a|, 4)
    ensures StartsWith(r, a[..Min(|a|, 6)]) && EndsWith(r, a[|a| - Min(|a|, 4)..])
  {
    a[..Min(|a|, 6)] + "..." + a[|a| - Min(|a|, 4)..]
  }

  /** The positions between the first six and the last four never reach the report. */
  lemma MaskHidesMiddle(a: string, i: nat, c: char)
    requires 6 <= i < |a| - 4
    ensures MaskAddress(a[i := c]) == MaskAddress(a)
  {
    var b := a[i := c];
    assert b[..6] == a[..6];
    assert b[|b| - 4..] == a[|a| - 4..];
  }

  lemma MaskAddressExample()
    ensures MaskAddress("0x1234567890abcdef") == "0x1234...cdef"
    ensures MaskAddress("0xab") == "0xab...0xab"
  {
    assert "0x1234567890abcdef"[..6] == "0x1234";
    assert "0x1234567890abcdef"[14..] == "cdef";
    assert "0xab"[..4] == "0xab" && "0xab"[0..] == "0xab";
  }

  // ---------------------------------------------------------------------
  // The message

  /** One line of the report; amounts are kept as numbers, their `:.2f` and `:.4f` renderings are not
      modelled. */
  datatype Line =
    | Title                                              // "💰 用户资产报告"
    | UserLine(note: string)                             // "用户:【 note】"
    | CheckTime(time: string)                            // "检查时间: ..."
    | TotalLine(amount: real)                            // "总资产价值: $... USD"
    | ExchangeLine(amount: real)                         // "🏢 币安交所: $... USDT"
    | SpotLine(amount: real)                             // "  📈 现货账户: ..."
    | FundingLine(amount: real)                          // "  💰 资金账户: ..."
    | MainAssetsHeader                                   // "主要资产:"
    | AssetLine(kind: SubAccount, asset: string, total: real)  // "  📈 BTC: ..." or "  💰 ..."
    | ExchangeMissing                                    // "🏢 币安账户: 未配置或获取失败"
    | WalletValue(amount: real)                          // "💼 链上钱包: $... USD"
    | WalletFailed                                       // "💼 链上钱包: ❌ 获取失败"
    | AddressLine(masked: string)                        // "地址: 0x1234...cdef"
    | WalletMissing                                      // "💼 钱包: 未配置"

  function AssetLineOf(e: Entry): Line
  {
    AssetLine(e.accountType, e.asset, e.total)
  }

  function AssetLines(top: seq<Entry>): (r: seq<Line>)
    ensures |r| == |top| && forall i :: 0 <= i < |top| ==> r[i] == AssetLineOf(top[i])
  {
    seq(|top|, i requires 0 <= i < |top| => AssetLineOf(top[i]))
  }

  /** The exchange section: its total, the two sub-account totals when positive, and the main assets. */
  function BinanceSection(b: Option<BinanceResult>): seq<Line>
  {
    match b
    case None => [ExchangeMissing]
    case Some(r) => AccountTotalLines(r) + MainAssetLines(r.balances)
  }

  function AccountTotalLines(r: BinanceResult): seq<Line>
  {
    [ExchangeLine(r.totalUsdt)]
      + (if r.spotTotalUsdt > 0.0 then [SpotLine(r.spotTotalUsdt)] else [])
      + (if r.fundingTotalUsdt > 0.0 then [FundingLine(r.fundingTotalUsdt)] else [])
  }

  function MainAssetLines(balances: seq<Entry>): seq<Line>
  {
    var top := TopAssets(balances);
    if top != [] then [MainAssetsHeader] + AssetLines(top) else []
  }

  /** The wallet section: its value or the failure mark, then the masked address. */
  function WalletSection(w: Option<WalletResult>): seq<Line>
  {
    match w
    case None => [WalletMissing]
    case Some(r) => [if r.fetchSuccess then WalletValue(r.totalUsd) else WalletFailed, AddressLine(MaskAddress(r.address))]
  }

  /** The whole report; the two clock readings are inputs. */
  function Message(userNote: string, assets: UserAssets, startTime: string, endTime: string): seq<Line>
  {
    [Title, UserLine(userNote), CheckTime(startTime), TotalLine(assets.totalUsd)]
      + BinanceSection(assets.binance) + WalletSection(assets.okxWallet) + [CheckTime(endTime)]
  }

  /** The exchange totals of `format_user_assets_message`: the sub-account lines only when positive. */
  method AppendAccountTotals(message: seq<Line>, binance: BinanceResult) returns (r: seq<Line>)
    ensures r == message + AccountTotalLines(binance)
  {
    r := message + [ExchangeLine(binance.totalUsdt)];
    if binance.spotTotalUsdt > 0.0 {
      r := r + [SpotLine(binance.spotTotalUsdt)];
    }
    if binance.fundingTotalUsdt > 0.0 {
      r := r + [FundingLine(binance.fundingTotalUsdt)];
    }
  }

  /** The main assets of `format_user_assets_message`: the balance list is sorted largest first and
      the first eight above one unit are listed under a header, if there are any. */
  method AppendMainAssets(message: seq<Line>, balances: seq<Entry>) returns (r: seq<Line>)
    ensures r == message + MainAssetLines(balances)
  {
    r := message;
    if balances != [] {
      var sorted := SortBy(balances, ByTotalDescending);
      var top := TopOf(sorted);
      if top != [] {
        r := AppendAssetLines(r + [MainAssetsHeader], top);
      }
    } else {
      assert TopAssets(balances) == [];
    }
  }

  /** The main-asset loop: one line per asset, in order. */
  method AppendAssetLines(message: seq<Line>, top: seq<Entry>) returns (r: seq<Line>)
    ensures r == message + AssetLines(top)
  {
    r := message;
    for i := 0 to |top|
      invariant r == message + AssetLines(top[..i])
    {
      assert AssetLines(top[..i + 1]) == AssetLines(top[..i]) + [AssetLineOf(top[i])];
      r := r + [AssetLineOf(top[i])];
    }
    assert top[..|top|] == top;
  }

  /** The wallet part of `format_user_assets_message`. */
  method AppendWalletSection(message: seq<Line>, wallet: Option<WalletResult>) returns (r: seq<Line>)
    ensures r == message + WalletSection(wallet)
  {
    if wallet.Some? {
      var okx := wallet.value;
      if okx.fetchSuccess {
        r := message + [WalletValue(okx.totalUsd)];
      } else {
        r := message + [WalletFailed];
      }
      r := r + [AddressLine(MaskAddress(okx.address))];
    } else {
      r := message + [WalletMissing];
    }
  }

  /** The exchange part of `format_user_assets_message` for an account that answered. */
  method AppendExchangeResult(message: seq<Line>, binance: BinanceResult) returns (r: seq<Line>)
    ensures r == message + (AccountTotalLines(binance) + MainAssetLines(binance.balances))
  {
    var withTotals := AppendAccountTotals(message, binance);
    r := AppendMainAssets(withTotals, binance.balances);
  }

  /** The exchange part of `format_user_assets_message`. */
  method AppendBinanceSection(message: seq<Line>, binance: Option<BinanceResult>) returns (r: seq<Line>)
    ensures r == message + BinanceSection(binance)
  {
    if binance.Some? {
      r := AppendExchangeResult(message, binance.value);
    } else {
      r := message + [ExchangeMissing];
    }
  }

  /** `format_user_assets_message`, growing the message line by line. */
  method FormatUserAssetsMessage(userNote: string, assets: UserAssets, startTime: string, endTime: string)
    returns (message: seq<Line>)
    ensures message == Message(userNote, assets, startTime, endTime)
  {
    var head := [Title, UserLine(userNote), CheckTime(startTime), TotalLine(assets.totalUsd)];
    message := AppendBinanceSection(head, assets.binance);
    message := AppendWalletSection(message, assets.okxWallet);
    message := message + [CheckTime(endTime)];
  }

  /** The kinds of line the exchange section is made of. */
  predicate ExchangeSectionLine(l: Line)
  {
    l.ExchangeLine? || l.SpotLine? || l.FundingLine? || l.MainAssetsHeader? || l.AssetLine? || l.ExchangeMissing?
  }

  lemma BinanceSectionMeaning(b: Option<BinanceResult>)
    ensures var m := BinanceSection(b);
      && (ExchangeMissing in m <==> b.None?)
      && (forall x :: SpotLine(x) in m <==> b.Some? && b.value.spotTotalUsdt > 0.0 && x == b.value.spotTotalUsdt)
      && (forall x :: FundingLine(x) in m <==> b.Some? && b.value.fundingTotalUsdt > 0.0 && x == b.value.fundingTotalUsdt)
      && (MainAssetsHeader in m <==> b.Some? && TopAssets(b.value.balances) != [])
      && forall i :: 0 <= i < |m| ==> ExchangeSectionLine(m[i])
  {
    if b.Some? {
      var totals := AccountTotalLines(b.value);
      var main := MainAssetLines(b.value.balances);
      AccountTotalLinesMeaning(b.value);
      MainAssetLinesKinds(b.value.balances);
      assert BinanceSection(b) == totals + main;
    }
  }

  lemma BinanceSectionKinds(b: Option<BinanceResult>)
    ensures forall i :: 0 <= i < |BinanceSection(b)| ==> ExchangeSectionLine(BinanceSection(b)[i])
  {
    BinanceSectionMeaning(b);
  }

  lemma BinanceSectionMember(b: Option<BinanceResult>, l: Line)
    ensures l in BinanceSection(b) ==> ExchangeSectionLine(l)
  {
    var bs := BinanceSection(b);
    BinanceSectionKinds(b);
    if l in bs {
      var i :| 0 <= i < |bs| && bs[i] == l;
    }
  }

  lemma AccountTotalLinesMeaning(r: BinanceResult)
    ensures var m := AccountTotalLines(r);
      && (forall i :: 0 <= i < |m| ==> m[i].ExchangeLine? || m[i].SpotLine? || m[i].FundingLine?)
      && ExchangeMissing !in m && MainAssetsHeader !in m
      && (forall x :: SpotLine(x) in m <==> r.spotTotalUsdt > 0.0 && x == r.spotTotalUsdt)
      && (forall x :: FundingLine(x) in m <==> r.fundingTotalUsdt > 0.0 && x == r.fundingTotalUsdt)
  {
  }

  lemma MainAssetLinesKinds(balances: seq<Entry>)
    ensures var m := MainAssetLines(balances);
      && (forall i :: 0 <= i < |m| ==> m[i].MainAssetsHeader? || m[i].AssetLine?)
      && ExchangeMissing !in m
      && (forall x :: SpotLine(x) !in m && FundingLine(x) !in m)
      && (MainAssetsHeader in m <==> TopAssets(balances) != [])
  {
    var top := TopAssets(balances);
    var m := MainAssetLines(balances);
    assert forall i :: 0 <= i < |AssetLines(top)| ==> AssetLines(top)[i].AssetLine?;
    assert forall i :: 0 <= i < |m| ==> m[i].MainAssetsHeader? || m[i].AssetLine?;
  }

  lemma WalletSectionMeaning(w: Option<WalletResult>)
    ensures var m := WalletSection(w);
      && (WalletMissing in m <==> w.None?)
      && (WalletFailed in m <==> w.Some? && !w.value.fetchSuccess)
      && (forall x :: WalletValue(x) in m <==> w.Some? && w.value.fetchSuccess && x == w.value.totalUsd)
      && (forall a :: AddressLine(a) in m <==> w.Some? && a == MaskAddress(w.value.address))
  {
  }

  /** What the report says: the exchange line or the "not configured" line, the sub-account totals
      exactly when positive, exactly the main assets, the wallet value only after a successful fetch,
      the failure mark otherwise, and the masked address of a configured wallet. */
  lemma MessageMeaning(userNote: string, assets: UserAssets, startTime: string, endTime: string)
    ensures var m := Message(userNote, assets, startTime, endTime);
      && m[0] == Title && m[1] == UserLine(userNote) && m[2] == CheckTime(startTime)
      && m[3] == TotalLine(assets.totalUsd) && m[|m| - 1] == CheckTime(endTime)
      && (ExchangeMissing in m <==> assets.binance.None?)
      && (forall x :: SpotLine(x) in m <==>
            assets.binance.Some? && assets.binance.value.spotTotalUsdt > 0.0 && x == assets.binance.value.spotTotalUsdt)
      && (forall x :: FundingLine(x) in m <==>
            assets.binance.Some? && assets.binance.value.fundingTotalUsdt > 0.0 && x == assets.binance.value.fundingTotalUsdt)
      && (MainAssetsHeader in m <==> assets.binance.Some? && TopAssets(assets.binance.value.balances) != [])
      && (WalletMissing in m <==> assets.okxWallet.None?)
      && (WalletFailed in m <==> assets.okxWallet.Some? && !assets.okxWallet.value.fetchSuccess)
      && (forall x :: WalletValue(x) in m <==>
            assets.okxWallet.Some? && assets.okxWallet.value.fetchSuccess && x == assets.okxWallet.value.totalUsd)
      && (forall a :: AddressLine(a) in m <==> assets.okxWallet.Some? && a == MaskAddress(assets.okxWallet.value.address))
  {
    BinanceSectionMeaning(assets.binance);
    WalletSectionMeaning(assets.okxWallet);
    MessageSections(userNote, assets, startTime, endTime);
  }

  /** A line of the exchange kinds comes from the exchange section and any other wallet line from the
      wallet section. */
  lemma MessageSections(userNote: string, assets: UserAssets, startTime: string, endTime: string)
    ensures var m := Message(userNote, assets, startTime, endTime);
      && (forall l :: ExchangeSectionLine(l) ==> (l in m <==> l in BinanceSection(assets.binance)))
      && (forall l :: WalletSectionLine(l) ==> (l in m <==> l in WalletSection(assets.okxWallet)))
  {
    var m := Message(userNote, assets, startTime, endTime);
    forall l | ExchangeSectionLine(l) ensures l in m <==> l in BinanceSection(assets.binance) {
      ExchangeLineSource(userNote, assets, startTime, endTime, l);
    }
    forall l | WalletSectionLine(l) ensures l in m <==> l in WalletSection(assets.okxWallet) {
      WalletLineSource(userNote, assets, startTime, endTime, l);
    }
  }

  lemma ExchangeLineSource(userNote: string, assets: UserAssets, startTime: string, endTime: string, l: Line)
    requires ExchangeSectionLine(l)
    ensures l in Message(userNote, assets, startTime, endTime) <==> l in BinanceSection(assets.binance)
  {
    MessageLineSource(userNote, assets, startTime, endTime, l);
    WalletSectionMember(assets.okxWallet, l);
  }

  lemma WalletLineSource(userNote: string, assets: UserAssets, startTime: string, endTime: string, l: Line)
    requires WalletSectionLine(l)
    ensures l in Message(userNote, assets, startTime, endTime) <==> l in WalletSection(assets.okxWallet)
  {
    MessageLineSource(userNote, assets, startTime, endTime, l);
    BinanceSectionMember(assets.binance, l);
  }

  /** A line of the report is in its header, one of its two sections, or the closing time. */
  lemma MessageLineSource(userNote: string, assets: UserAssets, startTime: string, endTime: string, l: Line)
    ensures l in Message(userNote, assets, startTime, endTime) <==>
      || l in [Title, UserLine(userNote), CheckTime(startTime), TotalLine(assets.totalUsd)]
      || l in BinanceSection(assets.binance) || l in WalletSection(assets.okxWallet) || l == CheckTime(endTime)
  {
    Seqs.InConcat4([Title, UserLine(userNote), CheckTime(startTime), TotalLine(assets.totalUsd)],
                   BinanceSection(assets.binance), WalletSection(assets.okxWallet), [CheckTime(endTime)], l);
  }

  /** The kinds of line the wallet section is made of. */
  predicate WalletSectionLine(l: Line)
  {
    l.WalletValue? || l.WalletFailed? || l.AddressLine? || l.WalletMissing?
  }

  lemma WalletSectionKinds(w: Option<WalletResult>)
    ensures forall i :: 0 <= i < |WalletSection(w)| ==> WalletSectionLine(WalletSection(w)[i])
  {
  }

  lemma WalletSectionMember(w: Option<WalletResult>, l: Line)
    ensures l in WalletSection(w) ==> WalletSectionLine(l)
  {
    var ws := WalletSection(w);
    WalletSectionKinds(w);
    if l in ws {
      var i :| 0 <= i < |ws| && ws[i] == l;
    }
  }

  /** The asset lines of the report are, in order, the main assets of the balance list. */
  lemma MessageAssetLines(userNote: string, assets: UserAssets, startTime: string, endTime: string, l: Line)
    requires l.AssetLine?
    ensures l in Message(userNote, assets, startTime, endTime) <==>
      assets.binance.Some? && exists e :: e in TopAssets(assets.binance.value.balances) && l == AssetLineOf(e)
  {
    ExchangeLineSource(userNote, assets, startTime, endTime, l);
    if assets.binance.Some? {
      SectionAssetLines(assets.binance.value, l);
    }
  }

  /** The asset lines of the exchange section are those of the main assets. */
  lemma SectionAssetLines(r: BinanceResult, l: Line)
    requires l.AssetLine?
    ensures l in BinanceSection(Some(r)) <==> exists e :: e in TopAssets(r.balances) && l == AssetLineOf(e)
  {
    AccountTotalLinesMeaning(r);
    assert l !in AccountTotalLines(r);
    AssetLinesMembers(TopAssets(r.balances), l);
  }

  lemma AssetLinesMembers(top: seq<Entry>, l: Line)
    ensures l in AssetLines(top) <==> exists e :: e in top && l == AssetLineOf(e)
  {
    if l in AssetLines(top) {
      var i :| 0 <= i < |top| && AssetLines(top)[i] == l;
      assert top[i] in top;
    }
    if exists e :: e in top && l == AssetLineOf(e) {
      var e :| e in top && l == AssetLineOf(e);
      var i :| 0 <= i < |top| && top[i] == e;
      assert AssetLines(top)[i] == l;
    }
  }
}
