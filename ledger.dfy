/** The `balance_history` table as an append-only ledger: `save_balance_to_db` adds one row per
    attempted source, with the account identifier replaced by the first 16 hex digits of its
    SHA-256 digest. */
module Ledger {
  import opened Wrappers
  import opened Assets

  /** The decoded `asset_details` column. */
  datatype Details =
    | BinanceDetails(spotBalances: seq<Entry>, fundingBalances: seq<Entry>, spotTotalUsdt: real, fundingTotalUsdt: real)
    | WalletDetails(address: string, chains: string, totalValueUsd: real, fetchSuccess: bool)

  /** One row; `timestamp` is the insertion time and `assetDetails == None` a NULL column. */
  datatype Row = Row(
    accountType: string,
    accountNote: string,
    accountIdentifier: string,
    timestamp: int,
    totalUsdt: real,
    assetDetails: Option<Details>)

  /** `hexdigest()[:16]`: Python's slice keeps at most the first 16 characters. */
  function HashPrefix(digest: string): (r: string)
    ensures |r| <= 16 && r <= digest
    ensures |digest| >= 16 ==> |r| == 16
    ensures |digest| < 16 ==> r == digest
  {
    if |digest| <= 16 then digest else digest[..16]
  }

  /** A SHA-256 hex digest has 64 characters, so the stored identifier is always its 16-digit prefix. */
  lemma StoredIdentifierIsDigestPrefix(digest: string)
    requires |digest| == 64
    ensures |HashPrefix(digest)| == 16 && HashPrefix(digest) == digest[..16]
  {
  }

  class BalanceLedger {
    var rows: seq<Row>
    /** SHA-256 of the UTF-8 encoding of its argument, as 64 lower-case hex digits (FIPS 180-4). */
    const sha256Hex: string -> string

    constructor (sha256Hex: string -> string)
      ensures rows == [] && this.sha256Hex == sha256Hex
    {
      rows := [];
      this.sha256Hex := sha256Hex;
    }

    /** `save_balance_to_db`: exactly one new row at the end, the earlier rows untouched. */
    method Append(accountType: string, accountNote: string, accountIdentifier: string, now: int,
                  totalUsdt: real, details: Details)
      modifies this
      ensures rows == old(rows) + [Row(accountType, accountNote, HashPrefix(sha256Hex(accountIdentifier)),
                                       now, totalUsdt, Some(details))]
      ensures old(rows) <= rows && |rows| == |old(rows)| + 1
    {
      var identifierHash := HashPrefix(sha256Hex(accountIdentifier));
      rows := rows + [Row(accountType, accountNote, identifierHash, now, totalUsdt, Some(details))];
    }
  }
}
