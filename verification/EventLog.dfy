/** The append-only event log (src/shared/log.py) and the one fold over it that decides which mints
    the desk still holds after a restart (src/crypto/crypto_executor.py). */
module EventLog {
  import opened Models
  import opened Base58

  type Mint = string

  datatype Kind = Buy | Close | Stranded | Other

  /** One JSON line. Fields a record type does not carry hold their empty value; `ts` is absent when
      the timestamp does not parse. */
  datatype Record = Record(
    kind: Kind, market: string, symbol: string, mint: Mint, tokenMint: Mint, rawAmount: int,
    ts: Option<int>, stamp: string, pnl: real, amount: real, holdHours: real, score: real,
    sector: string, theme: string)

  const BLANK := Record(Other, "", "", "", "", 0, None, "", 0.0, 0.0, 0.0, 0.0, "", "")
  const CRYPTO := "crypto"

  function BuyOf(mint: Mint, amount: real): Record {
    BLANK.(kind := Buy, market := CRYPTO, mint := mint, amount := amount)
  }

  function CloseOf(mint: Mint, pnl: real): Record {
    BLANK.(kind := Close, market := CRYPTO, mint := mint, pnl := pnl)
  }

  function StrandedOf(mint: Mint, raw: int): Record {
    BLANK.(kind := Stranded, market := CRYPTO, mint := mint, rawAmount := raw)
  }

  predicate LooksLikePubkey(s: string) {
    32 <= |s| <= 44 && IsBase58(s) && |Decode(s)| == 32
  }

  /** What looks like a mint is one: the text of 32 bytes in base58, and nothing else of its length. */
  lemma LooksLikePubkeyIff(s: string)
    ensures LooksLikePubkey(s) <==>
              32 <= |s| <= 44 && exists key: seq<Byte> :: |key| == 32 && Encode(key) == s
  {
    if LooksLikePubkey(s) {
      EncodeDecode(s);
      assert |Decode(s)| == 32 && Encode(Decode(s)) == s;
    }
    forall key: seq<Byte> | |key| == 32 && Encode(key) == s ensures IsBase58(s) && |Decode(s)| == 32 {
      DecodeEncode(key);
    }
  }

  /** The mint a record speaks of, or "" when it names none. */
  function MintOf(r: Record): Mint {
    if r.mint != "" then r.mint
    else if r.tokenMint != "" then r.tokenMint
    else if LooksLikePubkey(r.symbol) then r.symbol
    else ""
  }

  /** Which mint that is: the record's own, else its token's, else its symbol if that is the text of a key. */
  lemma MintOfExact(r: Record)
    ensures r.mint != "" ==> MintOf(r) == r.mint
    ensures r.mint == "" && r.tokenMint != "" ==> MintOf(r) == r.tokenMint
    ensures r.mint == "" && r.tokenMint == "" ==>
              && (MintOf(r) == r.symbol || MintOf(r) == "")
              && (MintOf(r) != "" <==>
                    32 <= |r.symbol| <= 44 && exists key: seq<Byte> :: |key| == 32 && Encode(key) == r.symbol)
  {
    LooksLikePubkeyIff(r.symbol);
  }

  predicate Speaks(r: Record, m: Mint) {
    r.market == CRYPTO && m != "" && MintOf(r) == m
  }

  predicate Opens(r: Record, m: Mint) {
    Speaks(r, m) && (r.kind == Buy || (r.kind == Stranded && r.rawAmount > 0))
  }

  predicate Closes(r: Record, m: Mint) {
    Speaks(r, m) && r.kind == Close
  }

  /** One round of the fold. */
  function Read(still: set<Mint>, r: Record): set<Mint> {
    var m := MintOf(r);
    if Opens(r, m) then still + {m} else if Closes(r, m) then still - {m} else still
  }

  function OpenMints(log: seq<Record>): set<Mint> {
    if log == [] then {} else Read(OpenMints(log[..|log| - 1]), log[|log| - 1])
  }

  /** The declarative reading: some record opened the mint and none after it closed the mint. */
  ghost predicate StillOpen(log: seq<Record>, m: Mint) {
    exists i :: 0 <= i < |log| && Opens(log[i], m) && forall j :: i < j < |log| ==> !Closes(log[j], m)
  }

  /** One record, seen from one mint. */
  lemma ReadOne(still: set<Mint>, r: Record, m: Mint)
    ensures m in Read(still, r) <==> Opens(r, m) || (m in still && !Closes(r, m))
  {
    hide LooksLikePubkey;
  }

  lemma StillOpenNext(log: seq<Record>, r: Record, m: Mint)
    ensures StillOpen(log + [r], m) <==> Opens(r, m) || (StillOpen(log, m) && !Closes(r, m))
  {
    hide Opens, Closes;
    var longer, n := log + [r], |log|;
    assert longer[n] == r && forall i :: 0 <= i < n ==> longer[i] == log[i];
    if Opens(r, m) {
      assert Opens(longer[n], m);
    } else if StillOpen(log, m) && !Closes(r, m) {
      var i :| 0 <= i < n && Opens(log[i], m) && forall j :: i < j < n ==> !Closes(log[j], m);
      assert Opens(longer[i], m);
    }
  }

  /** The fold computes exactly the mints whose last opening record has no close after it. */
  lemma {:induction false} OpenMintsIsStillOpen(log: seq<Record>, m: Mint)
    ensures m in OpenMints(log) <==> StillOpen(log, m)
  {
    hide Read, Opens, Closes;
    if log != [] {
      var init, last := log[..|log| - 1], log[|log| - 1];
      assert log == init + [last];
      OpenMintsIsStillOpen(init, m);
      ReadOne(OpenMints(init), last, m);
      StillOpenNext(init, last, m);
    }
  }

  lemma OpenMintsAppend(log: seq<Record>, r: Record)
    ensures OpenMints(log + [r]) == Read(OpenMints(log), r)
  {
    hide Read;
    assert (log + [r])[..|log|] == log;
  }

  /** What the desk's own records do to the open set. */
  lemma BuyOpens(log: seq<Record>, m: Mint, amount: real)
    requires m != ""
    ensures OpenMints(log + [BuyOf(m, amount)]) == OpenMints(log) + {m}
  {
    hide OpenMints, LooksLikePubkey;
    OpenMintsAppend(log, BuyOf(m, amount));
  }

  lemma CloseCloses(log: seq<Record>, m: Mint, pnl: real)
    requires m != ""
    ensures OpenMints(log + [CloseOf(m, pnl)]) == OpenMints(log) - {m}
  {
    hide OpenMints, LooksLikePubkey;
    OpenMintsAppend(log, CloseOf(m, pnl));
  }

  lemma StrandedOpens(log: seq<Record>, m: Mint, raw: int)
    requires m != ""
    ensures OpenMints(log + [StrandedOf(m, raw)]) == if raw > 0 then OpenMints(log) + {m} else OpenMints(log)
  {
    hide OpenMints, LooksLikePubkey;
    OpenMintsAppend(log, StrandedOf(m, raw));
  }

  lemma IdleOpensNothing(log: seq<Record>, r: Record)
    requires r.market != CRYPTO || r.kind == Other
    ensures OpenMints(log + [r]) == OpenMints(log)
  {
    hide OpenMints, MintOf;
    OpenMintsAppend(log, r);
  }

  class Log {
    var records: seq<Record>

    constructor ()
      ensures records == []
    {
      records := [];
    }

    method Write(r: Record)
      modifies this
      ensures records == old(records) + [r]
    {
      records := records + [r];
    }
  }
}
