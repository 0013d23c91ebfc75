/** The per-user ledger file `wallet_<chatId>.json`, read whole, extended and written whole. */
module Ledger {
  import opened Wallets

  /** The file as the bot finds it: absent, a JSON array of records, or text that does not parse. */
  datatype LedgerFile = Missing | Json(records: seq<WalletRecord>) | Corrupt

  /** The file of `chat` in a directory of ledger files. */
  function FileOf(files: map<ChatId, LedgerFile>, chat: ChatId): LedgerFile
  {
    if chat in files then files[chat] else Missing
  }

  /** `existingWallets` after the read: the parsed array, or the empty list when the file is absent
      or does not parse (the parse error is only reported to the user). */
  function Existing(f: LedgerFile): seq<WalletRecord>
  {
    if f.Json? then f.records else []
  }

  /** Read, push one record, write back (bots.js, bot1.js, bot2.js, after every success). */
  function Append(f: LedgerFile, r: WalletRecord): (g: LedgerFile)
    ensures g.Json? && Existing(f) <= g.records && g.records[|Existing(f)|..] == [r]
  {
    Json(Existing(f) + [r])
  }

  /** Read, concatenate, write back once (bot.js, after the loop). */
  function Concat(f: LedgerFile, ws: seq<WalletRecord>): (g: LedgerFile)
    ensures g.Json? && Existing(f) <= g.records && g.records[|Existing(f)|..] == ws
  {
    Json(Existing(f) + ws)
  }

  /** Reading a file back after a write gives what the previous read gave, followed by the new
      records; a missing or unparsable file reads as empty, so a write replaces it. */
  lemma ReadAfterWrite(f: LedgerFile, r: WalletRecord, ws: seq<WalletRecord>)
    ensures Existing(Append(f, r)) == Existing(f) + [r]
    ensures Existing(Concat(f, ws)) == Existing(f) + ws
    ensures f == Missing || f == Corrupt ==> Existing(Append(f, r)) == [r] && Existing(Concat(f, ws)) == ws
  {
  }

  /** The ledger after appending each record of `ws` in turn. */
  function AppendAll(f: LedgerFile, ws: seq<WalletRecord>): LedgerFile
    decreases |ws|
  {
    if ws == [] then f else AppendAll(Append(f, ws[0]), ws[1..])
  }

  /** Appending the first record and then the rest is appending them all. */
  lemma SplitFirst(e: seq<WalletRecord>, ws: seq<WalletRecord>)
    requires ws != []
    ensures (e + [ws[0]]) + ws[1..] == e + ws
  {
    assert [ws[0]] + ws[1..] == ws;
  }

  /** Writing after every success (the guarded variants) leaves the same file as writing once at the
      end (bot.js), as soon as there was at least one success. */
  lemma {:induction false} AppendAllIsConcat(f: LedgerFile, ws: seq<WalletRecord>)
    requires ws != []
    ensures AppendAll(f, ws) == Concat(f, ws)
    decreases |ws|
  {
    var g := Append(f, ws[0]);
    if |ws| == 1 {
      assert ws == [ws[0]];
    } else {
      AppendAllIsConcat(g, ws[1..]);
      SplitFirst(Existing(f), ws);
    }
  }
}
