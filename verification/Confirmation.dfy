/** Reading a payout's transaction back from the chain: decoding its logs and deciding whether the
    expected transfer is confirmed. */
module Confirmation {
  import opened Options
  import opened Amounts

  type Address = string

  datatype Symbol = TRX | USDT | USDC

  datatype Token = Token(symbol: Symbol, decimals: nat)

  /** A 32-byte topic: the Transfer signature or not, and the address it decodes to, if any. */
  datatype Topic = Topic(isTransfer: bool, address: Option<Address>)

  /** A log entry as the node returns it; a `None` field is missing or does not decode. */
  datatype LogEntry = LogEntry(emitter: Option<Address>, topics: Option<seq<Topic>>, data: Option<nat>)

  datatype Contract =
    | TransferContract(source: Option<Address>, destination: Option<Address>, sun: Option<nat>)
    | TriggerSmartContract
    | OtherContract

  /** `ret` holds the contract results; `None` inside it is a missing or null result. */
  datatype Tx = Tx(txid: Option<string>, contract: Option<Contract>, ret: Option<seq<Option<string>>>)

  datatype TxInfo = TxInfo(log: Option<seq<LogEntry>>, blockNumber: Option<int>, block_number: Option<int>)

  /** A decoded transfer of `value` base units, that is `value` over ten to the `decimals`. */
  datatype Transfer = Transfer(
    symbol: Symbol, source: Address, destination: Address, value: nat, decimals: nat, isTrc20: bool)

  datatype Entry = Skipped | Decoded(transfer: Transfer) | Broken

  /** One log entry: foreign tokens and other events are skipped, a token's own Transfer event must
      decode. */
  function DecodeEntry(tokens: map<Address, Token>, entry: LogEntry): Entry {
    if entry.emitter.None? then Broken
    else if entry.emitter.value !in tokens then Skipped
    else if entry.topics.None? || entry.topics.value == [] then Broken
    else if !entry.topics.value[0].isTransfer then Skipped
    else if |entry.topics.value| != 3 then Broken
    else if entry.topics.value[1].address.None? || entry.topics.value[2].address.None? || entry.data.None?
    then Broken
    else
      var token := tokens[entry.emitter.value];
      Decoded(Transfer(token.symbol, entry.topics.value[1].address.value, entry.topics.value[2].address.value,
                       entry.data.value, token.decimals, true))
  }

  /** The transfers of a log in order, leaving out what is skipped. */
  function DecodeLog(tokens: map<Address, Token>, log: seq<LogEntry>): seq<Transfer> {
    if log == [] then []
    else
      var init := DecodeLog(tokens, log[..|log| - 1]);
      match DecodeEntry(tokens, log[|log| - 1])
      case Decoded(transfer) => init + [transfer]
      case _ => init
  }

  datatype Parse = Parsed(transfers: seq<Transfer>) | Unparsed

  predicate Succeeded(tx: Tx) {
    tx.txid.Some? && tx.contract.Some? && tx.ret.Some? && tx.ret.value != [] && tx.ret.value[0] == Some("SUCCESS")
  }

  /** No entry stops the decoder. */
  predicate LogParses(tokens: map<Address, Token>, log: seq<LogEntry>) {
    forall i :: 0 <= i < |log| ==> !DecodeEntry(tokens, log[i]).Broken?
  }

  /** A transaction of a token contract whose whole log can be read. */
  predicate TokenTxParses(tokens: map<Address, Token>, tx: Tx, info: TxInfo) {
    && Succeeded(tx) && tx.contract.value.TriggerSmartContract?
    && info.log.Some? && LogParses(tokens, info.log.value)
  }

  method ParseTx(tokens: map<Address, Token>, tx: Tx, info: TxInfo) returns (r: Parse)
    ensures !Succeeded(tx) || tx.contract.value.OtherContract? ==> r == Unparsed
    ensures Succeeded(tx) && tx.contract.value.TriggerSmartContract? ==>
      r == if TokenTxParses(tokens, tx, info) then Parsed(DecodeLog(tokens, info.log.value)) else Unparsed
    ensures Succeeded(tx) && tx.contract.value.TransferContract? ==>
      var coin := tx.contract.value;
      r == if coin.source.Some? && coin.destination.Some? && coin.sun.Some? then
             Parsed([Transfer(TRX, coin.source.value, coin.destination.value, coin.sun.value, 6, false)])
           else Unparsed
  {
    var transactions: seq<Transfer> := [];
    if tx.txid.None? || tx.contract.None? || tx.ret.None? || tx.ret.value == [] {
      return Unparsed;
    }
    if tx.ret.value[0] != Some("SUCCESS") {
      return Unparsed;
    }
    match tx.contract.value
    case TransferContract(source, destination, sun) =>
      if source.None? || destination.None? || sun.None? {
        return Unparsed;
      }
      transactions := transactions + [Transfer(TRX, source.value, destination.value, sun.value, 6, false)];
      return Parsed(transactions);
    case TriggerSmartContract =>
      if info.log.None? {
        return Unparsed;
      }
      var log := info.log.value;
      var i := 0;
      while i < |log|
        invariant 0 <= i <= |log|
        invariant transactions == DecodeLog(tokens, log[..i])
        invariant forall j :: 0 <= j < i ==> !DecodeEntry(tokens, log[j]).Broken?
      {
        assert log[..i + 1][..i] == log[..i];
        var entry := log[i];
        if entry.emitter.None? {
          return Unparsed;
        }
        if entry.emitter.value in tokens {
          var token := tokens[entry.emitter.value];
          if entry.topics.None? || entry.topics.value == [] {
            return Unparsed;
          }
          if entry.topics.value[0].isTransfer {
            if |entry.topics.value| != 3 {
              return Unparsed;
            }
            var from, to := entry.topics.value[1].address, entry.topics.value[2].address;
            if from.None? || to.None? || entry.data.None? {
              return Unparsed;
            }
            transactions := transactions
              + [Transfer(token.symbol, from.value, to.value, entry.data.value, token.decimals, true)];
          }
        }
        i := i + 1;
      }
      assert log[..i] == log;
      return Parsed(transactions);
    case OtherContract =>
      return Unparsed;
  }

  /** A transfer is listed exactly when some entry of the log decodes to it. */
  lemma {:induction false} DecodeLogMembers(tokens: map<Address, Token>, log: seq<LogEntry>, t: Transfer)
    ensures t in DecodeLog(tokens, log) <==> exists i :: 0 <= i < |log| && DecodeEntry(tokens, log[i]) == Decoded(t)
  {
    if log != [] {
      var init := log[..|log| - 1];
      DecodeLogMembers(tokens, init, t);
      assert forall i :: 0 <= i < |init| ==> log[i] == init[i];
    }
  }

  /** The payout a transaction is expected to carry; `units` is its amount in millionths. */
  datatype Expected = Expected(source: Address, destination: Address, units: nat)

  predicate IsExpected(t: Transfer, e: Expected) {
    && t.isTrc20 && t.symbol == USDT && t.source == e.source && t.destination == e.destination
    && SameAmount(t.value, t.decimals, e.units)
  }

  /** A token's own Transfer event that cannot be read. */
  predicate Unreadable(tokens: map<Address, Token>, entry: LogEntry) {
    || entry.emitter == None
    || (entry.emitter.value in tokens
        && (|| entry.topics == None || entry.topics == Some([])
            || (entry.topics.value[0].isTransfer
                && (|| |entry.topics.value| != 3 || entry.data == None
                    || entry.topics.value[1].address == None || entry.topics.value[2].address == None))))
  }

  /** The entry is a Transfer event of USDT from the expected source, its first indexed address, to the expected
      destination, its second, and its data is the expected amount at the token's decimals. */
  predicate Pays(tokens: map<Address, Token>, entry: LogEntry, e: Expected) {
    && !Unreadable(tokens, entry)
    && entry.emitter.value in tokens && tokens[entry.emitter.value].symbol == USDT
    && entry.topics.value[0].isTransfer
    && entry.topics.value[1].address == Some(e.source) && entry.topics.value[2].address == Some(e.destination)
    && entry.data.value * 1_000_000 == e.units * Pow10(tokens[entry.emitter.value].decimals)
  }

  /** What is decoded from an entry. */
  lemma EntryIsRead(tokens: map<Address, Token>, entry: LogEntry, e: Expected)
    ensures DecodeEntry(tokens, entry).Broken? <==> Unreadable(tokens, entry)
    ensures DecodeEntry(tokens, entry).Decoded? ==>
              var t := DecodeEntry(tokens, entry).transfer;
              && t.isTrc20 && entry.emitter.value in tokens
              && t.symbol == tokens[entry.emitter.value].symbol
              && t.decimals == tokens[entry.emitter.value].decimals
              && Some(t.source) == entry.topics.value[1].address
              && Some(t.destination) == entry.topics.value[2].address
              && Some(t.value) == entry.data
    ensures DecodeEntry(tokens, entry).Decoded? && IsExpected(DecodeEntry(tokens, entry).transfer, e)
            <==> Pays(tokens, entry, e)
  {
    assert Pow10(USDT_DECIMALS) == 1_000_000 by { Million(); }
    hide Pow10;
  }

  lemma Million()
    ensures Pow10(6) == 1_000_000
  {
    assert Pow10(3) == 1_000;
    Pow10Add(3, 3);
  }

  /** What the chain says of the contract's execution, if anything. */
  function ResultOf(tx: Tx): Option<string> {
    if tx.ret.Some? && tx.ret.value != [] then tx.ret.value[0] else None
  }

  /** A token transaction that succeeded, with a log that can be read throughout. */
  predicate ReadsThrough(tokens: map<Address, Token>, tx: Tx, info: TxInfo) {
    && tx.txid.Some? && tx.contract == Some(TriggerSmartContract) && ResultOf(tx) == Some("SUCCESS")
    && info.log.Some? && forall i :: 0 <= i < |info.log.value| ==> !Unreadable(tokens, info.log.value[i])
  }

  /** A transfer of the coin itself that succeeded. */
  predicate MovesCoin(tx: Tx) {
    && tx.txid.Some? && tx.contract.Some? && tx.contract.value.TransferContract? && ResultOf(tx) == Some("SUCCESS")
    && tx.contract.value.source.Some? && tx.contract.value.destination.Some? && tx.contract.value.sun.Some?
  }

  predicate Deep(info: TxInfo, latest: Option<int>, minimum: nat) {
    var block := if info.blockNumber.Some? && info.blockNumber != Some(0) then info.blockNumber else info.block_number;
    block.Some? && latest.Some? && latest.value - block.value + 1 >= minimum
  }

  ghost predicate SomePays(tokens: map<Address, Token>, log: seq<LogEntry>, e: Expected) {
    exists i :: 0 <= i < |log| && Pays(tokens, log[i], e)
  }

  lemma LogIsRead(tokens: map<Address, Token>, log: seq<LogEntry>, e: Expected)
    ensures LogShows(tokens, log, e) <==> SomePays(tokens, log, e)
    ensures LogParses(tokens, log) <==> forall i :: 0 <= i < |log| ==> !Unreadable(tokens, log[i])
  {
    forall i | 0 <= i < |log|
      ensures DecodeEntry(tokens, log[i]).Broken? <==> Unreadable(tokens, log[i])
      ensures DecodeEntry(tokens, log[i]).Decoded? && IsExpected(DecodeEntry(tokens, log[i]).transfer, e)
              <==> Pays(tokens, log[i], e)
    {
      EntryIsRead(tokens, log[i], e);
    }
    hide DecodeEntry, IsExpected, Unreadable, Pays;
  }

  function BlockNumber(info: TxInfo): Option<int> {
    if info.blockNumber.Some? && info.blockNumber.value != 0 then info.blockNumber else info.block_number
  }

  /** Confirmations of the transaction; none when its block or the head of the chain is unknown. */
  function Confirmations(info: TxInfo, latest: Option<int>): nat {
    var block := BlockNumber(info);
    if block.None? || latest.None? then 0
    else if latest.value - block.value + 1 > 0 then latest.value - block.value + 1 else 0
  }

  datatype Verdict = Confirming | Confirmed | FailedChainTerminal | CheckRaised

  /** The result of a transaction that does not parse: terminal only when the chain says it failed. */
  function UnparsedVerdict(tx: Tx): Verdict {
    if tx.ret.None? then Confirming
    else if tx.ret.value == [] then CheckRaised
    else if tx.ret.value[0].None? || tx.ret.value[0].value == "SUCCESS" then Confirming
    else FailedChainTerminal
  }

  ghost predicate LogShows(tokens: map<Address, Token>, log: seq<LogEntry>, e: Expected) {
    exists i :: 0 <= i < |log| && DecodeEntry(tokens, log[i]).Decoded?
                && IsExpected(DecodeEntry(tokens, log[i]).transfer, e)
  }

  /** The confirmation check.  CONFIRMED means that the log of a token transaction was read through, that some
      entry of it pays exactly what is expected, and that the block is deep enough; terminal failure means that
      the chain reports another result than success, or that the transaction is deep enough without such an
      entry.  An empty list of results raises, and everything else is still CONFIRMING. */
  method RefreshConfirmation(tokens: map<Address, Token>, tx: Tx, info: TxInfo, latest: Option<int>,
                             minimum: nat, e: Expected) returns (v: Verdict)
    requires minimum >= 1
    ensures v.Confirmed? <==>
            && ReadsThrough(tokens, tx, info) && SomePays(tokens, info.log.value, e)
            && Deep(info, latest, minimum)
    ensures v.FailedChainTerminal? <==>
            || (ResultOf(tx).Some? && ResultOf(tx) != Some("SUCCESS"))
            || (ReadsThrough(tokens, tx, info) && !SomePays(tokens, info.log.value, e) && Deep(info, latest, minimum))
            || (MovesCoin(tx) && Deep(info, latest, minimum))
    ensures v.CheckRaised? <==> tx.ret == Some([])
  {
    hide DecodeEntry, Pays, Unreadable;
    if info.log.Some? {
      LogIsRead(tokens, info.log.value, e);
    }
    var confirmations := Confirmations(info, latest);
    var parse := ParseTx(tokens, tx, info);
    if parse.Unparsed? {
      return UnparsedVerdict(tx);
    }
    var i := 0;
    while i < |parse.transfers|
      invariant 0 <= i <= |parse.transfers|
      invariant forall j :: 0 <= j < i ==> !IsExpected(parse.transfers[j], e)
    {
      if IsExpected(parse.transfers[i], e) {
        if tx.contract.value.TriggerSmartContract? {
          DecodeLogMembers(tokens, info.log.value, parse.transfers[i]);
        }
        return if confirmations < minimum then Confirming else Confirmed;
      }
      i := i + 1;
    }
    if tx.contract.value.TriggerSmartContract? {
      forall k | 0 <= k < |info.log.value| && DecodeEntry(tokens, info.log.value[k]).Decoded?
        ensures !IsExpected(DecodeEntry(tokens, info.log.value[k]).transfer, e)
      {
        DecodeLogMembers(tokens, info.log.value, DecodeEntry(tokens, info.log.value[k]).transfer);
      }
    }
    return if confirmations >= minimum then FailedChainTerminal else Confirming;
  }

  /** The Transfer event of a payout's own transfer is the expected one, for every amount, exactly when the
      token has at least the six decimals payouts are denominated in. */
  lemma OwnTransferIsRecognised(source: Address, destination: Address, decimals: nat)
    ensures (forall units: nat ::
               IsExpected(Transfer(USDT, source, destination, BaseUnits(units, decimals), decimals, true),
                          Expected(source, destination, units)))
      <==> decimals >= USDT_DECIMALS
  {
    forall units: nat
      ensures IsExpected(Transfer(USDT, source, destination, BaseUnits(units, decimals), decimals, true),
                         Expected(source, destination, units))
        <==> decimals >= USDT_DECIMALS || units % Pow10(USDT_DECIMALS - decimals) == 0
    {
      AmountRoundTrips(units, decimals);
    }
    if decimals < USDT_DECIMALS {
      var gap: nat := USDT_DECIMALS - decimals;
      assert Pow10(gap) == 10 * Pow10(gap - 1);
      assert 1 % Pow10(gap) == 1;
      var t := Transfer(USDT, source, destination, BaseUnits(1, decimals), decimals, true);
      assert !IsExpected(t, Expected(source, destination, 1));
    }
  }
}
