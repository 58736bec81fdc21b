/** Splitting an incoming transfer over configured addresses, and the ledger that lets an interrupted
    payout be resumed. */
module SplitLedger {
  import opened Options

  type Address = string

  datatype Share = Share(address: Address, ratio: real)

  function SumRatios(shares: seq<Share>): real {
    if shares == [] then 0.0 else SumRatios(shares[..|shares| - 1]) + shares[|shares| - 1].ratio
  }

  /** What the configuration accepts. */
  ghost predicate ValidShares(shares: seq<Share>) {
    && |shares| >= 1
    && (forall i :: 0 <= i < |shares| ==> 0.0 < shares[i].ratio <= 1.0)
    && (forall i, j :: 0 <= i < j < |shares| ==> shares[i].address != shares[j].address)
    && SumRatios(shares) == 1.0
  }

  datatype Level = Level(low: real, high: real, shares: seq<Share>)

  datatype Drain = Aml(levels: seq<Level>) | Regular(shares: seq<Share>) | NotConfigured

  datatype TxType = FromFee | AmlChecked | RegularTx

  datatype TxStatus = Ready | Pending | Rechecking | Drained | OtherStatus

  datatype Transaction = Transaction(ttype: TxType, status: TxStatus, score: real, amount: real)

  /** An item of the payout list: where, what is sent, and the share it stands for. */
  datatype Entry = Entry(address: Address, send: real, share: real)

  datatype Payout = Payout(address: Address, share: real, send: real, success: bool)

  type Ledger = seq<Payout>

  function Addresses(ledger: Ledger): set<Address> {
    set i | 0 <= i < |ledger| :: ledger[i].address
  }

  /** The amounts the first k shares are worth. */
  function PaidBefore(shares: seq<Share>, amount: real, k: nat): real
    requires k <= |shares|
  {
    if k == 0 then 0.0 else PaidBefore(shares, amount, k - 1) + amount * shares[k - 1].ratio
  }

  /** The whole split: each address its share, the last one what is left. */
  function Split(shares: seq<Share>, amount: real): (entries: seq<Entry>)
    requires |shares| >= 1
    ensures |entries| == |shares|
    ensures forall i :: 0 <= i < |shares| ==> entries[i].address == shares[i].address
  {
    var n := |shares|;
    seq(n, i requires 0 <= i < n =>
      var value := if i < n - 1 then amount * shares[i].ratio else amount - PaidBefore(shares, amount, n - 1);
      Entry(shares[i].address, value, value))
  }

  function Unpaid(entries: seq<Entry>, done: set<Address>): seq<Entry> {
    if entries == [] then []
    else
      var last := entries[|entries| - 1];
      Unpaid(entries[..|entries| - 1], done) + if last.address in done then [] else [last]
  }

  /** The first level that covers the score, if any. */
  function LevelFor(levels: seq<Level>, score: real): Option<Level> {
    if levels == [] then None
    else if levels[0].low <= score <= levels[0].high then Some(levels[0])
    else LevelFor(levels[1..], score)
  }

  /** The split a transaction is due, if any. */
  function SharesFor(drain: Drain, tx: Transaction): Option<seq<Share>> {
    if tx.ttype.FromFee? then None
    else match drain
      case NotConfigured => None
      case Regular(shares) => if tx.ttype.RegularTx? && tx.status.Drained? then None else Some(shares)
      case Aml(levels) =>
        if tx.ttype.AmlChecked? && tx.status.Ready? && LevelFor(levels, tx.score).Some? then
          Some(LevelFor(levels, tx.score).value.shares)
        else None
  }

  ghost predicate ValidDrain(drain: Drain) {
    match drain
    case NotConfigured => true
    case Regular(shares) => ValidShares(shares)
    case Aml(levels) => forall i :: 0 <= i < |levels| ==> ValidShares(levels[i].shares)
  }

  lemma {:induction false} LevelIsListed(levels: seq<Level>, score: real)
    requires LevelFor(levels, score).Some?
    ensures LevelFor(levels, score).value in levels
  {
    if !(levels[0].low <= score <= levels[0].high) {
      LevelIsListed(levels[1..], score);
    }
  }

  predicate Covers(level: Level, score: real) {
    level.low <= score <= level.high
  }

  /** `shares` are what the transaction is split by: under an AML drain, those of the first level that covers the
      score of a checked transaction that is ready; under a regular one, the configured ones, unless the
      transaction is from the fee deposit or a regular one that is drained already. */
  ghost predicate AppliesTo(shares: seq<Share>, drain: Drain, tx: Transaction) {
    match drain
    case NotConfigured => false
    case Regular(configured) =>
      shares == configured && tx.ttype != FromFee && !(tx.ttype == RegularTx && tx.status == Drained)
    case Aml(levels) =>
      && tx.ttype == AmlChecked && tx.status == Ready
      && exists i :: 0 <= i < |levels| && IsFirst(levels, i, tx.score) && shares == levels[i].shares
  }

  ghost predicate IsFirst(levels: seq<Level>, i: nat, score: real)
    requires i < |levels|
  {
    Covers(levels[i], score) && forall j :: 0 <= j < i ==> !Covers(levels[j], score)
  }

  lemma {:induction false} LevelForIsFirst(levels: seq<Level>, score: real)
    ensures
      match LevelFor(levels, score)
      case None => forall i :: 0 <= i < |levels| ==> !Covers(levels[i], score)
      case Some(level) => exists i :: 0 <= i < |levels| && IsFirst(levels, i, score) && level == levels[i]
  {
    if levels != [] {
      if Covers(levels[0], score) {
        assert IsFirst(levels, 0, score);
      } else {
        LevelForIsFirst(levels[1..], score);
        assert forall i :: 1 <= i < |levels| ==> levels[i] == levels[1..][i - 1];
        if LevelFor(levels[1..], score).Some? {
          var i :| 0 <= i < |levels[1..]| && IsFirst(levels[1..], i, score)
                   && LevelFor(levels, score).value == levels[1..][i];
          assert IsFirst(levels, i + 1, score);
        }
      }
    }
  }

  lemma DueSharesApply(drain: Drain, tx: Transaction, shares: seq<Share>)
    ensures AppliesTo(shares, drain, tx) <==> SharesFor(drain, tx) == Some(shares)
  {
    if drain.Aml? {
      LevelForIsFirst(drain.levels, tx.score);
    }
  }

  /** `at` are the places, among the first `n`, of the addresses still to be paid, in order. */
  predicate OpenAt(shares: seq<Share>, done: set<Address>, n: nat, at: seq<nat>)
    requires n <= |shares|
  {
    && (forall k :: 0 <= k < |at| ==> at[k] < n && shares[at[k]].address !in done)
    && (forall k, m :: 0 <= k < m < |at| ==> at[k] < at[m])
    && (forall i :: 0 <= i < n && shares[i].address !in done ==> i in at)
  }

  /** The amount times the ratio. */
  function EntryOf(share: Share, amount: real): Entry {
    Entry(share.address, amount * share.ratio, amount * share.ratio)
  }

  /** One entry for each of them. */
  predicate EntriesAt(entries: seq<Entry>, shares: seq<Share>, amount: real, at: seq<nat>) {
    && |entries| == |at|
    && forall k :: 0 <= k < |at| ==>
         at[k] < |shares| && entries[k] == EntryOf(shares[at[k]], amount)
  }

  lemma OpenNext(shares: seq<Share>, done: set<Address>, n: nat, at: seq<nat>)
    requires n < |shares| && OpenAt(shares, done, n, at)
    ensures OpenAt(shares, done, n + 1, if shares[n].address in done then at else at + [n])
  {
  }

  lemma EntriesNext(entries: seq<Entry>, shares: seq<Share>, amount: real, at: seq<nat>, n: nat, entry: Entry)
    requires EntriesAt(entries, shares, amount, at) && n < |shares|
    requires entry == EntryOf(shares[n], amount)
    ensures EntriesAt(entries + [entry], shares, amount, at + [n])
  {
  }

  lemma {:induction false} OpenEntries(shares: seq<Share>, amount: real, done: set<Address>, n: nat)
    returns (at: seq<nat>)
    requires ValidShares(shares) && n <= |shares|
    ensures OpenAt(shares, done, n, at)
    ensures EntriesAt(Unpaid(Split(shares, amount)[..n], done), shares, amount, at)
  {
    hide OpenAt, EntriesAt, Split, Unpaid;
    if n == 0 {
      NoneOpen(shares, amount, done);
      at := [];
    } else {
      var before := OpenEntries(shares, amount, done, n - 1);
      SplitEntry(shares, amount, n - 1);
      at := OneMore(shares, Split(shares, amount), amount, done, n - 1, before);
    }
  }

  lemma OneMore(shares: seq<Share>, entries: seq<Entry>, amount: real, done: set<Address>, n: nat, before: seq<nat>)
    returns (at: seq<nat>)
    requires n < |shares| == |entries| && entries[n] == EntryOf(shares[n], amount)
    requires OpenAt(shares, done, n, before) && EntriesAt(Unpaid(entries[..n], done), shares, amount, before)
    ensures OpenAt(shares, done, n + 1, at) && EntriesAt(Unpaid(entries[..n + 1], done), shares, amount, at)
  {
    var open := Unpaid(entries[..n], done);
    UnpaidNext(entries, done, n);
    OpenNext(shares, done, n, before);
    if shares[n].address in done {
      at := before;
      assert Unpaid(entries[..n + 1], done) == open;
    } else {
      at := before + [n];
      EntriesNext(open, shares, amount, before, n, entries[n]);
    }
    hide OpenAt, EntriesAt, Unpaid;
  }

  lemma NoneOpen(shares: seq<Share>, amount: real, done: set<Address>)
    requires |shares| >= 1
    ensures OpenAt(shares, done, 0, []) && EntriesAt(Unpaid(Split(shares, amount)[..0], done), shares, amount, [])
  {
  }

  lemma UnpaidNext(entries: seq<Entry>, done: set<Address>, n: nat)
    requires n < |entries|
    ensures Unpaid(entries[..n + 1], done)
            == Unpaid(entries[..n], done) + if entries[n].address in done then [] else [entries[n]]
  {
    assert entries[..n + 1][..n] == entries[..n];
  }

  lemma SplitEntry(shares: seq<Share>, amount: real, i: nat)
    requires ValidShares(shares) && i < |shares|
    ensures Split(shares, amount)[i] == EntryOf(shares[i], amount)
  {
    RemainderIsProportional(shares, amount);
  }

  /** What is still to be paid out; None when nothing is, or nothing is due. */
  function PayoutList(drain: Drain, tx: Option<Transaction>, done: set<Address>): (list: Option<seq<Entry>>)
    ensures list.Some? ==> list.value != []
  {
    if tx.None? || SharesFor(drain, tx.value).None? || SharesFor(drain, tx.value).value == [] then None
    else
      var open := Unpaid(Split(SharesFor(drain, tx.value).value, tx.value.amount), done);
      if open == [] then None else Some(open)
  }

  /** The open shares of a due transaction, and their list. */
  ghost predicate ListedAt(
    list: seq<Entry>, drain: Drain, tx: Transaction, done: set<Address>, shares: seq<Share>, at: seq<nat>)
  {
    AppliesTo(shares, drain, tx) && OpenAt(shares, done, |shares|, at) && EntriesAt(list, shares, tx.amount, at)
  }

  /** There is something to pay: shares apply and one of their addresses is not paid yet. */
  ghost predicate Owes(drain: Drain, tx: Transaction, done: set<Address>) {
    exists shares: seq<Share> ::
      AppliesTo(shares, drain, tx) && exists i :: 0 <= i < |shares| && shares[i].address !in done
  }

  /** A list is built exactly when there is something to pay, and then it is that of the open shares. */
  lemma ListIsDue(drain: Drain, tx: Transaction, done: set<Address>)
    requires ValidDrain(drain)
    ensures
      match PayoutList(drain, Some(tx), done)
      case None => !Owes(drain, tx, done)
      case Some(list) => Owes(drain, tx, done) && exists shares, at :: ListedAt(list, drain, tx, done, shares, at)
  {
    forall shares
      ensures AppliesTo(shares, drain, tx) <==> SharesFor(drain, tx) == Some(shares)
    {
      DueSharesApply(drain, tx, shares);
    }
    if SharesFor(drain, tx).Some? {
      var shares := SharesFor(drain, tx).value;
      DueSharesAreValid(drain, tx);
      hide AppliesTo, SharesFor, Split, OpenAt, EntriesAt, Unpaid, ValidDrain, ValidShares;
      var at := SplitIsListed(shares, tx.amount, done);
      if PayoutList(drain, Some(tx), done).Some? {
        assert ListedAt(PayoutList(drain, Some(tx), done).value, drain, tx, done, shares, at);
      }
    }
  }

  lemma SplitIsListed(shares: seq<Share>, amount: real, done: set<Address>) returns (at: seq<nat>)
    requires ValidShares(shares)
    ensures OpenAt(shares, done, |shares|, at)
    ensures EntriesAt(Unpaid(Split(shares, amount), done), shares, amount, at)
    ensures Unpaid(Split(shares, amount), done) == [] <==> forall i :: 0 <= i < |shares| ==> shares[i].address in done
  {
    at := OpenEntries(shares, amount, done, |shares|);
    var entries := Split(shares, amount);
    assert entries[..|shares|] == entries;
    UnpaidIsEmpty(entries, done);
    assert forall i :: 0 <= i < |shares| ==> entries[i].address == shares[i].address;
    hide Split, Unpaid, OpenAt, EntriesAt;
  }

  /** The last address gets exactly its share, because the ratios sum to 1. */
  lemma RemainderIsProportional(shares: seq<Share>, amount: real)
    requires ValidShares(shares)
    ensures
      var n := |shares|;
      amount - PaidBefore(shares, amount, n - 1) == amount * shares[n - 1].ratio
  {
    var n := |shares|;
    PaidIsProportional(shares, amount, n - 1);
    assert shares[..n][..n - 1] == shares[..n - 1];
    assert amount * (1.0 - SumRatios(shares[..n - 1])) == amount - amount * SumRatios(shares[..n - 1]);
  }

  lemma {:induction false} PaidIsProportional(shares: seq<Share>, amount: real, k: nat)
    requires k <= |shares|
    ensures PaidBefore(shares, amount, k) == amount * SumRatios(shares[..k])
  {
    if k > 0 {
      PaidIsProportional(shares, amount, k - 1);
      assert shares[..k][..k - 1] == shares[..k - 1];
      assert SumRatios(shares[..k]) == SumRatios(shares[..k - 1]) + shares[k - 1].ratio;
      Distributes(amount, SumRatios(shares[..k - 1]), shares[k - 1].ratio);
    }
  }

  lemma Distributes(a: real, b: real, c: real)
    ensures a * (b + c) == a * b + a * c
  {
  }

  /** Every entry of the split is exactly amount times ratio. */
  lemma SplitIsProportional(shares: seq<Share>, amount: real, i: nat)
    requires ValidShares(shares) && i < |shares|
    ensures Split(shares, amount)[i].share == amount * shares[i].ratio
  {
    RemainderIsProportional(shares, amount);
  }

  /** When exactly the first m addresses are paid, exactly the others are open. */
  lemma {:induction false} UnpaidIsSuffix(entries: seq<Entry>, done: set<Address>, m: nat, n: nat)
    requires n <= |entries|
    requires forall i :: 0 <= i < |entries| ==> (entries[i].address in done <==> i < m)
    ensures Unpaid(entries[..n], done) == if n <= m then [] else entries[m..n]
  {
    if n > 0 {
      UnpaidIsSuffix(entries, done, m, n - 1);
      assert entries[..n][..n - 1] == entries[..n - 1];
      assert entries[..n][n - 1] == entries[n - 1];
    }
  }

  /** The ledger holds the first so many entries of the split, less `cost` each in what was sent. */
  predicate IsPrefix(ledger: Ledger, shares: seq<Share>, amount: real, cost: real) {
    && |ledger| <= |shares|
    && forall k :: 0 <= k < |ledger| ==>
         && ledger[k].address == shares[k].address
         && ledger[k].share == amount * shares[k].ratio
         && ledger[k].send == ledger[k].share - cost
  }

  /** What one payout run may do to the ledger: record some of the open entries, in order. */
  predicate Continues(before: Ledger, after: Ledger, open: seq<Entry>, cost: real) {
    && before <= after
    && |after| <= |before| + |open|
    && forall k :: |before| <= k < |after| ==>
         && after[k].address == open[k - |before|].address
         && after[k].share == open[k - |before|].share
         && after[k].send == open[k - |before|].send - cost
  }

  lemma OpenIsSuffix(ledger: Ledger, shares: seq<Share>, amount: real, cost: real)
    requires ValidShares(shares) && IsPrefix(ledger, shares, amount, cost)
    ensures Unpaid(Split(shares, amount), Addresses(ledger)) == Split(shares, amount)[|ledger|..]
  {
    var entries, done := Split(shares, amount), Addresses(ledger);
    forall i | 0 <= i < |entries|
      ensures entries[i].address in done <==> i < |ledger|
    {
      if i < |ledger| {
        assert ledger[i].address in done;
      }
    }
    UnpaidIsSuffix(entries, done, |ledger|, |entries|);
    assert entries[..|entries|] == entries;
  }

  lemma RunKeepsPrefix(before: Ledger, after: Ledger, shares: seq<Share>, amount: real, cost: real)
    requires ValidShares(shares) && IsPrefix(before, shares, amount, cost)
    requires Continues(before, after, Unpaid(Split(shares, amount), Addresses(before)), cost)
    ensures IsPrefix(after, shares, amount, cost)
  {
    OpenIsSuffix(before, shares, amount, cost);
    var entries := Split(shares, amount);
    forall k | |before| <= k < |after|
      ensures after[k].share == amount * shares[k].ratio && after[k].send == after[k].share - cost
    {
      SplitIsProportional(shares, amount, k);
      assert entries[|before|..][k - |before|] == entries[k];
    }
  }

  /** The ledgers after each of a series of runs, each cut short anywhere. */
  ghost predicate Runs(ledgers: seq<Ledger>, shares: seq<Share>, amount: real, cost: real)
    requires |shares| >= 1
  {
    && |ledgers| >= 1 && ledgers[0] == []
    && forall i :: 0 <= i < |ledgers| - 1 ==>
         Continues(ledgers[i], ledgers[i + 1], Unpaid(Split(shares, amount), Addresses(ledgers[i])), cost)
  }

  lemma {:induction false} RunsKeepPrefix(ledgers: seq<Ledger>, shares: seq<Share>, amount: real, cost: real, i: nat)
    requires ValidShares(shares) && Runs(ledgers, shares, amount, cost) && i < |ledgers|
    ensures IsPrefix(ledgers[i], shares, amount, cost)
  {
    if i > 0 {
      RunsKeepPrefix(ledgers, shares, amount, cost, i - 1);
      RunKeepsPrefix(ledgers[i - 1], ledgers[i], shares, amount, cost);
    }
  }

  function SumShares(ledger: Ledger): real {
    if ledger == [] then 0.0 else SumShares(ledger[..|ledger| - 1]) + ledger[|ledger| - 1].share
  }

  function SumSent(ledger: Ledger): real {
    if ledger == [] then 0.0 else SumSent(ledger[..|ledger| - 1]) + ledger[|ledger| - 1].send
  }

  /** What a ledger that is a prefix of the split says: an address has at most one entry, each entry is exactly
      amount times ratio, and nothing is open exactly when every address is paid; then the entries sum to the
      amount, and what was sent falls short by the costs alone. */
  ghost predicate OneShot(ledger: Ledger, shares: seq<Share>, amount: real, cost: real)
    requires |shares| >= 1
  {
    && (forall k, m :: 0 <= k < m < |ledger| ==> ledger[k].address != ledger[m].address)
    && |ledger| <= |shares|
    && (forall k :: 0 <= k < |ledger| ==>
          ledger[k].address == shares[k].address && ledger[k].share == amount * shares[k].ratio)
    && (Unpaid(Split(shares, amount), Addresses(ledger)) == [] <==> |ledger| == |shares|)
    && (|ledger| == |shares| ==>
          SumShares(ledger) == amount && SumSent(ledger) == amount - |shares| as real * cost)
  }

  lemma PrefixIsOneShot(ledger: Ledger, shares: seq<Share>, amount: real, cost: real)
    requires ValidShares(shares) && IsPrefix(ledger, shares, amount, cost)
    ensures OneShot(ledger, shares, amount, cost)
  {
    OpenIsSuffix(ledger, shares, amount, cost);
    if |ledger| == |shares| {
      CompleteSums(ledger, shares, amount, cost);
    }
    hide SumShares, SumSent;
  }

  /** A resumed split is the one-shot split, however the runs are cut. */
  lemma ResumedSplitIsOneShot(ledgers: seq<Ledger>, shares: seq<Share>, amount: real, cost: real, i: nat)
    requires ValidShares(shares) && Runs(ledgers, shares, amount, cost) && i < |ledgers|
    ensures OneShot(ledgers[i], shares, amount, cost)
  {
    RunsKeepPrefix(ledgers, shares, amount, cost, i);
    PrefixIsOneShot(ledgers[i], shares, amount, cost);
  }

  lemma CompleteSums(ledger: Ledger, shares: seq<Share>, amount: real, cost: real)
    requires ValidShares(shares) && IsPrefix(ledger, shares, amount, cost) && |ledger| == |shares|
    ensures SumShares(ledger) == amount && SumSent(ledger) == amount - |shares| as real * cost
  {
    assert shares[..|ledger|] == shares;
    WholePortion(amount);
    hide IsPrefix, SumShares, SumSent, Portion, SumRatios;
    PrefixSums(ledger, shares, amount, cost);
    PortionOf(cost, |ledger| as real);
  }

  function Portion(amount: real, ratio: real): real {
    amount * ratio
  }

  lemma WholePortion(amount: real)
    ensures Portion(amount, 1.0) == amount
  {
  }

  lemma PortionOf(amount: real, ratio: real)
    ensures Portion(amount, ratio) == ratio * amount
  {
  }

  lemma {:induction false} PrefixSums(ledger: Ledger, shares: seq<Share>, amount: real, cost: real)
    requires IsPrefix(ledger, shares, amount, cost)
    ensures SumShares(ledger) == Portion(amount, SumRatios(shares[..|ledger|]))
    ensures SumSent(ledger) == SumShares(ledger) - Portion(cost, |ledger| as real)
  {
    var n := |ledger|;
    if n > 0 {
      PrefixSums(ledger[..n - 1], shares, amount, cost);
      assert shares[..n][..n - 1] == shares[..n - 1];
      assert SumRatios(shares[..n]) == SumRatios(shares[..n - 1]) + shares[n - 1].ratio;
      Distributes(amount, SumRatios(shares[..n - 1]), shares[n - 1].ratio);
    }
  }

  /** Base units of an amount that is not negative. */
  function Units(amount: real, unitsPerCoin: real): int {
    (amount * unitsPerCoin).Floor
  }

  function SumUnits(shares: seq<Share>, amount: real, unitsPerCoin: real, k: nat): int
    requires k <= |shares|
  {
    if k == 0 then 0
    else SumUnits(shares, amount, unitsPerCoin, k - 1) + Units(amount * shares[k - 1].ratio, unitsPerCoin)
  }

  function Scaled(amount: real, unitsPerCoin: real, ratio: real): real {
    amount * unitsPerCoin * ratio
  }

  lemma {:induction false} UnitsNearShares(shares: seq<Share>, amount: real, unitsPerCoin: real, k: nat)
    requires k <= |shares|
    ensures
      var whole := Scaled(amount, unitsPerCoin, SumRatios(shares[..k]));
      var sent := SumUnits(shares, amount, unitsPerCoin, k);
      sent as real <= whole <= sent as real + k as real && (k > 0 ==> whole < sent as real + k as real)
  {
    if k > 0 {
      UnitsNearShares(shares, amount, unitsPerCoin, k - 1);
      assert shares[..k][..k - 1] == shares[..k - 1];
      assert SumRatios(shares[..k]) == SumRatios(shares[..k - 1]) + shares[k - 1].ratio;
      Distributes(amount * unitsPerCoin, SumRatios(shares[..k - 1]), shares[k - 1].ratio);
      assert amount * unitsPerCoin * shares[k - 1].ratio == amount * shares[k - 1].ratio * unitsPerCoin;
    } else {
      assert shares[..0] == [];
    }
  }

  lemma WholeUnits(amount: real, unitsPerCoin: real)
    ensures Units(amount, unitsPerCoin) == Scaled(amount, unitsPerCoin, 1.0).Floor
  {
  }

  /** Truncating every share to base units never sends more than the whole, and loses fewer base units than
      there are addresses. */
  lemma TruncationLossIsBounded(shares: seq<Share>, amount: real, unitsPerCoin: real)
    requires ValidShares(shares)
    ensures
      var sent := SumUnits(shares, amount, unitsPerCoin, |shares|);
      Units(amount, unitsPerCoin) - (|shares| - 1) <= sent <= Units(amount, unitsPerCoin)
  {
    hide Scaled, Units, SumUnits, SumRatios;
    UnitsNearShares(shares, amount, unitsPerCoin, |shares|);
    assert shares[..|shares|] == shares;
    WholeUnits(amount, unitsPerCoin);
  }

  /** A list item while the list is being built: its second place first holds the ratio, then the value. */
  datatype Item = Item(address: Address, value: real, share: Option<real>)

  function Finished(items: seq<Item>): (entries: seq<Entry>)
    requires forall i :: 0 <= i < |items| ==> items[i].share.Some?
    ensures |entries| == |items|
  {
    seq(|items|, i requires 0 <= i < |items| => Entry(items[i].address, items[i].value, items[i].share.value))
  }

  /** Nothing is open exactly when every address is done. */
  lemma {:induction false} UnpaidIsEmpty(entries: seq<Entry>, done: set<Address>)
    ensures Unpaid(entries, done) == [] <==> forall i :: 0 <= i < |entries| ==> entries[i].address in done
  {
    if entries != [] {
      UnpaidIsEmpty(entries[..|entries| - 1], done);
    }
  }

  /** Put the shares on a list, overwrite each ratio with its amount, give the last item the rest, and keep
      the items not yet paid; None when none is left. */
  method SplitOpen(shares: seq<Share>, amount: real, done: set<Address>) returns (list: Option<seq<Entry>>)
    requires |shares| >= 1
    ensures
      var open := Unpaid(Split(shares, amount), done);
      list == if open == [] then None else Some(open)
  {
    hide PaidBefore;
    var items: seq<Item> := [];
    for i := 0 to |shares|
      invariant |items| == i
      invariant forall k :: 0 <= k < i ==> items[k] == Item(shares[k].address, shares[k].ratio, None)
    {
      items := items + [Item(shares[i].address, shares[i].ratio, None)];
    }
    var incomplete: seq<Address> := [];
    for i := 0 to |items|
      invariant incomplete == [] <==> forall k :: 0 <= k < i ==> items[k].address in done
    {
      if items[i].address !in done {
        incomplete := incomplete + [items[i].address];
      }
    }
    UnpaidIsEmpty(Split(shares, amount), done);
    if incomplete == [] {
      return None;
    }
    var entries := FillShares(shares, amount, items);
    var open: seq<Entry> := [];
    for i := 0 to |entries|
      invariant open == Unpaid(entries[..i], done)
    {
      assert entries[..i + 1][..i] == entries[..i];
      if entries[i].address !in done {
        open := open + [entries[i]];
      }
    }
    assert entries[..|entries|] == entries;
    list := Some(open);
  }

  /** Overwrite each ratio with its amount, the last one with the rest. */
  method FillShares(shares: seq<Share>, amount: real, filled: seq<Item>) returns (entries: seq<Entry>)
    requires |shares| >= 1 && |filled| == |shares|
    requires forall k :: 0 <= k < |shares| ==> filled[k] == Item(shares[k].address, shares[k].ratio, None)
    ensures entries == Split(shares, amount)
  {
    hide PaidBefore, Split;
    var items := filled;
    var paid := 0.0;
    var n := |items|;
    NothingPaid(shares, amount);
    for i := 0 to n - 1
      invariant |items| == n && paid == PaidBefore(shares, amount, i)
      invariant forall k :: 0 <= k < i ==> items[k] == Valued(shares[k], amount)
      invariant forall k :: i <= k < n ==> items[k] == filled[k]
    {
      assert items[i] == filled[i];
      PaidNext(shares, amount, i);
      var value := amount * items[i].value;
      paid := paid + value;
      items := items[i := items[i].(value := value, share := Some(value))];
      assert items[i] == Valued(shares[i], amount);
    }
    var rest := amount - paid;
    items := items[n - 1 := items[n - 1].(value := rest, share := Some(rest))];
    entries := Finished(items);
    FinishedIsSplit(shares, amount, items);
  }

  lemma NothingPaid(shares: seq<Share>, amount: real)
    ensures PaidBefore(shares, amount, 0) == 0.0
  {
  }

  lemma PaidNext(shares: seq<Share>, amount: real, i: nat)
    requires i < |shares|
    ensures PaidBefore(shares, amount, i + 1) == PaidBefore(shares, amount, i) + amount * shares[i].ratio
  {
  }

  lemma FinishedIsSplit(shares: seq<Share>, amount: real, items: seq<Item>)
    requires |shares| >= 1 && |items| == |shares|
    requires forall k :: 0 <= k < |shares| - 1 ==> items[k] == Valued(shares[k], amount)
    requires
      var rest := amount - PaidBefore(shares, amount, |shares| - 1);
      items[|shares| - 1] == Item(shares[|shares| - 1].address, rest, Some(rest))
    ensures (forall i :: 0 <= i < |items| ==> items[i].share.Some?) && Finished(items) == Split(shares, amount)
  {
    hide PaidBefore;
    forall k | 0 <= k < |items|
      ensures items[k].share.Some?
      ensures Entry(items[k].address, items[k].value, items[k].share.value) == Split(shares, amount)[k]
    {
      if k < |shares| - 1 {
        assert items[k] == Valued(shares[k], amount);
      }
    }
    forall k | 0 <= k < |items|
      ensures Finished(items)[k] == Split(shares, amount)[k]
    {
    }
  }

  function Valued(share: Share, amount: real): Item {
    Item(share.address, amount * share.ratio, Some(amount * share.ratio))
  }

  /** There is a list exactly when shares apply to the transaction of which one is open, and it has an entry for
      every open one. */
  ghost predicate IsListOf(
    list: Option<seq<Entry>>, drain: Drain, tx: Option<Transaction>, done: set<Address>)
  {
    && (list.Some? <==> tx.Some? && Owes(drain, tx.value, done))
    && (list.Some? ==> exists shares, at :: ListedAt(list.value, drain, tx.value, done, shares, at))
  }

  lemma PayoutListIsListOf(drain: Drain, tx: Option<Transaction>, done: set<Address>)
    requires ValidDrain(drain)
    ensures IsListOf(PayoutList(drain, tx, done), drain, tx, done)
  {
    if tx.Some? {
      ListIsDue(drain, tx.value, done);
    }
    hide Owes, ListedAt;
  }

  /** The payout list of a transaction, given the addresses already in its ledger. */
  method BuildPayoutList(drain: Drain, tx: Option<Transaction>, done: set<Address>) returns (list: Option<seq<Entry>>)
    requires ValidDrain(drain)
    ensures list == PayoutList(drain, tx, done)
    ensures IsListOf(list, drain, tx, done)
  {
    PayoutListIsListOf(drain, tx, done);
    hide IsListOf;
    if tx.None? || tx.value.ttype.FromFee? {
      return None;
    }
    var transaction := tx.value;
    match drain
    case NotConfigured => return None;
    case Regular(shares) =>
      if transaction.ttype.RegularTx? && transaction.status.Drained? {
        return None;
      }
      list := SplitOpen(shares, transaction.amount, done);
    case Aml(levels) =>
      if !(transaction.ttype.AmlChecked? && transaction.status.Ready?) {
        return None;
      }
      for i := 0 to |levels|
        invariant LevelFor(levels, transaction.score) == LevelFor(levels[i..], transaction.score)
      {
        if levels[i].low <= transaction.score <= levels[i].high {
          list := SplitOpen(levels[i].shares, transaction.amount, done);
          return;
        }
      }
      list := None;
  }

  /** What a payout run is confronted with: costs, balances, whether a missing fee can be topped up, and the
      outcome of each transfer in turn, None when it is rejected before it can be recorded. */
  datatype Env = Env(
    balance: real,
    threshold: real,
    bandwidthCost: real,
    feePerTransfer: real,
    trxBalance: real,
    toppedUp: bool,
    transfer: nat -> Option<bool>)

  function SumSends(entries: seq<Entry>): real {
    if entries == [] then 0.0 else SumSends(entries[..|entries| - 1]) + entries[|entries| - 1].send
  }

  /** The balance check adds back what was taken out: it compares the shares themselves with the balance. */
  lemma {:induction false} CostsCancel(entries: seq<Entry>, less: seq<Entry>, cost: real)
    requires |less| == |entries|
    requires forall k :: 0 <= k < |entries| ==> less[k].send == entries[k].send - cost
    ensures SumSends(less) + cost * |less| as real == SumSends(entries)
  {
    var n := |entries|;
    if n > 0 {
      CostsCancel(entries[..n - 1], less[..n - 1], cost);
      Distributes(cost, (n - 1) as real, 1.0);
    }
  }

  /** What a run holds back from each transfer. */
  function Cost(isTrx: bool, env: Env): real {
    if isTrx then env.bandwidthCost else 0.0
  }

  /** The balances let a run start paying. */
  predicate MayPay(isTrx: bool, env: Env, open: seq<Entry>) {
    && env.balance >= env.threshold
    && if isTrx then SumSends(open) <= env.balance
       else env.feePerTransfer * |open| as real <= env.trxBalance || env.toppedUp
  }

  /** How many of n transfers go through before the first that is rejected. */
  function Accepted(transfer: nat -> Option<bool>, n: nat): (k: nat)
    ensures k <= n
    ensures forall i: nat :: i < k ==> transfer(i).Some?
    ensures k < n ==> transfer(k).None?
  {
    if n == 0 then 0
    else
      var k := Accepted(transfer, n - 1);
      if k == n - 1 && transfer(n - 1).Some? then n else k
  }

  function Records(open: seq<Entry>, cost: real, transfer: nat -> Option<bool>, k: nat): seq<Payout>
    requires k <= |open| && forall i: nat :: i < k ==> transfer(i).Some?
  {
    seq(k, i requires 0 <= i < k =>
      Payout(open[i].address, open[i].share, open[i].send - cost, transfer(i).value))
  }

  /** What a run adds to the ledger. */
  function Paid(drain: Drain, isTrx: bool, tx: Option<Transaction>, env: Env, ledger: Ledger): seq<Payout> {
    var open := PayoutList(drain, tx, Addresses(ledger));
    if open.None? || !MayPay(isTrx, env, open.value) then []
    else Records(open.value, Cost(isTrx, env), env.transfer, Accepted(env.transfer, |open.value|))
  }

  /** What the open shares come to. */
  function OpenSum(shares: seq<Share>, amount: real, at: seq<nat>): real
    requires forall k :: 0 <= k < |at| ==> at[k] < |shares|
  {
    if at == [] then 0.0
    else OpenSum(shares, amount, at[..|at| - 1]) + amount * shares[at[|at| - 1]].ratio
  }

  lemma {:induction false} SumOfEntries(entries: seq<Entry>, shares: seq<Share>, amount: real, at: seq<nat>)
    requires EntriesAt(entries, shares, amount, at)
    ensures SumSends(entries) == OpenSum(shares, amount, at)
  {
    if at != [] {
      SumOfEntries(entries[..|at| - 1], shares, amount, at[..|at| - 1]);
    }
  }

  /** The balances let the open shares be paid: the coin reaches its threshold, and TRX covers the shares it is
      itself, or the fee of every transfer, unless what is missing is topped up. */
  predicate Affords(isTrx: bool, env: Env, shares: seq<Share>, amount: real, at: seq<nat>)
    requires forall k :: 0 <= k < |at| ==> at[k] < |shares|
  {
    && env.balance >= env.threshold
    && (isTrx ==> OpenSum(shares, amount, at) <= env.balance)
    && (!isTrx ==> env.feePerTransfer * |at| as real <= env.trxBalance || env.toppedUp)
  }

  /** A record of a transfer: the share, what was sent of it, and how it went. */
  predicate RecordsTransfer(payout: Payout, share: Share, amount: real, cost: real, reply: Option<bool>) {
    && reply.Some?
    && payout == Payout(share.address, amount * share.ratio, amount * share.ratio - cost, reply.value)
  }

  /** What a run records: for the first of the open shares, up to the first rejected transfer, the share, what was
      sent of it (in TRX less the cost of the transfer), and how the transfer went. */
  ghost predicate PaysDue(
    paid: seq<Payout>, drain: Drain, isTrx: bool, tx: Transaction, env: Env, done: set<Address>,
    shares: seq<Share>, at: seq<nat>)
  {
    && AppliesTo(shares, drain, tx) && OpenAt(shares, done, |shares|, at) && |paid| <= |at|
    && (if Affords(isTrx, env, shares, tx.amount, at) then |paid| < |at| ==> env.transfer(|paid|).None?
        else paid == [])
    && forall k: nat :: k < |paid| ==>
         RecordsTransfer(
           paid[k], shares[at[k]], tx.amount, if isTrx then env.bandwidthCost else 0.0, env.transfer(k))
  }

  /** A run adds to the ledger what is due, and nothing if nothing is. */
  ghost predicate RunPaysDue(
    drain: Drain, isTrx: bool, tx: Option<Transaction>, env: Env, before: Ledger, after: Ledger)
  {
    && before <= after
    && if tx.None? || !Owes(drain, tx.value, Addresses(before)) then after == before
       else exists shares, at ::
              PaysDue(after[|before|..], drain, isTrx, tx.value, env, Addresses(before), shares, at)
  }

  lemma RecordsAreTransfers(
    list: seq<Entry>, shares: seq<Share>, amount: real, at: seq<nat>, cost: real, transfer: nat -> Option<bool>, k: nat)
    requires EntriesAt(list, shares, amount, at) && k <= |list| && forall i: nat :: i < k ==> transfer(i).Some?
    ensures
      forall i: nat :: i < k ==>
        RecordsTransfer(Records(list, cost, transfer, k)[i], shares[at[i]], amount, cost, transfer(i))
  {
    forall i: nat | i < k
      ensures RecordsTransfer(Records(list, cost, transfer, k)[i], shares[at[i]], amount, cost, transfer(i))
    {
      assert list[i] == EntryOf(shares[at[i]], amount);
    }
  }

  lemma PaidIsDue(drain: Drain, isTrx: bool, tx: Option<Transaction>, env: Env, ledger: Ledger)
    requires ValidDrain(drain)
    ensures
      forall after :: after == ledger + Paid(drain, isTrx, tx, env, ledger) ==>
        RunPaysDue(drain, isTrx, tx, env, ledger, after)
  {
    var paid, done := Paid(drain, isTrx, tx, env, ledger), Addresses(ledger);
    assert (ledger + paid)[|ledger|..] == paid;
    if tx.Some? {
      ListIsDue(drain, tx.value, done);
      hide PayoutList, ValidDrain, Owes, Addresses, PaysDue, ListedAt, MayPay, Records, Accepted, Cost;
      if Owes(drain, tx.value, done) {
        var list := PayoutList(drain, tx, done).value;
        var shares, at :| ListedAt(list, drain, tx.value, done, shares, at);
        ListedRunPays(list, drain, isTrx, tx.value, env, done, shares, at);
      }
    }
  }

  lemma ListedRunPays(
    list: seq<Entry>, drain: Drain, isTrx: bool, tx: Transaction, env: Env, done: set<Address>,
    shares: seq<Share>, at: seq<nat>)
    requires ListedAt(list, drain, tx, done, shares, at)
    ensures
      var paid :=
        if MayPay(isTrx, env, list) then Records(list, Cost(isTrx, env), env.transfer, Accepted(env.transfer, |list|))
        else [];
      PaysDue(paid, drain, isTrx, tx, env, done, shares, at)
  {
    hide AppliesTo, OpenAt, RecordsTransfer, Records, Accepted, MayPay, Affords;
    var k := Accepted(env.transfer, |list|);
    AffordsIsMayPay(list, isTrx, env, shares, tx.amount, at);
    RecordsAreTransfers(list, shares, tx.amount, at, Cost(isTrx, env), env.transfer, k);
    RecordsCount(list, Cost(isTrx, env), env.transfer, k);
    OpenIsListed(shares, done, at);
    hide EntriesAt;
  }

  lemma AffordsIsMayPay(list: seq<Entry>, isTrx: bool, env: Env, shares: seq<Share>, amount: real, at: seq<nat>)
    requires EntriesAt(list, shares, amount, at)
    ensures MayPay(isTrx, env, list) <==> Affords(isTrx, env, shares, amount, at)
  {
    SumOfEntries(list, shares, amount, at);
    hide SumSends, OpenSum;
  }

  lemma OpenIsListed(shares: seq<Share>, done: set<Address>, at: seq<nat>)
    requires OpenAt(shares, done, |shares|, at)
    ensures forall k :: 0 <= k < |at| ==> at[k] < |shares|
  {
  }

  lemma RecordsCount(open: seq<Entry>, cost: real, transfer: nat -> Option<bool>, k: nat)
    requires k <= |open| && forall i: nat :: i < k ==> transfer(i).Some?
    ensures |Records(open, cost, transfer, k)| == k
  {
  }

  /** A run of the wallet, on a transaction that is due, is one of the runs above. */
  lemma WalletRunContinues(drain: Drain, isTrx: bool, tx: Transaction, env: Env, before: Ledger)
    requires ValidDrain(drain) && SharesFor(drain, tx).Some?
    ensures
      var shares := SharesFor(drain, tx).value;
      && ValidShares(shares)
      && Continues(
           before, before + Paid(drain, isTrx, Some(tx), env, before),
           Unpaid(Split(shares, tx.amount), Addresses(before)), Cost(isTrx, env))
  {
    if drain.Aml? {
      LevelIsListed(drain.levels, tx.score);
    }
  }

  /** The ledger after a series of wallet runs on one transaction. */
  function LedgerAfter(drain: Drain, isTrx: bool, tx: Transaction, envs: seq<Env>): Ledger {
    if envs == [] then []
    else
      var earlier := LedgerAfter(drain, isTrx, tx, envs[..|envs| - 1]);
      earlier + Paid(drain, isTrx, Some(tx), envs[|envs| - 1], earlier)
  }

  lemma {:induction false} WalletRunsKeepPrefix(
    drain: Drain, isTrx: bool, tx: Transaction, envs: seq<Env>, cost: real)
    requires ValidDrain(drain) && SharesFor(drain, tx).Some?
    requires forall i :: 0 <= i < |envs| ==> Cost(isTrx, envs[i]) == cost
    ensures ValidShares(SharesFor(drain, tx).value)
    ensures IsPrefix(LedgerAfter(drain, isTrx, tx, envs), SharesFor(drain, tx).value, tx.amount, cost)
  {
    hide Paid, Cost, IsPrefix, Continues, ValidShares, ValidDrain, SharesFor;
    var shares := SharesFor(drain, tx).value;
    DueSharesAreValid(drain, tx);
    if envs == [] {
      NothingIsPrefix(shares, tx.amount, cost);
    } else {
      var earlier, env := envs[..|envs| - 1], envs[|envs| - 1];
      var before := LedgerAfter(drain, isTrx, tx, earlier);
      WalletRunsKeepPrefix(drain, isTrx, tx, earlier, cost);
      WalletRunContinues(drain, isTrx, tx, env, before);
      RunKeepsPrefix(before, before + Paid(drain, isTrx, Some(tx), env, before), shares, tx.amount, cost);
    }
  }

  lemma DueSharesAreValid(drain: Drain, tx: Transaction)
    requires ValidDrain(drain) && SharesFor(drain, tx).Some?
    ensures ValidShares(SharesFor(drain, tx).value) && |SharesFor(drain, tx).value| >= 1
  {
    if drain.Aml? {
      LevelIsListed(drain.levels, tx.score);
    }
  }

  lemma NothingIsPrefix(shares: seq<Share>, amount: real, cost: real)
    ensures IsPrefix([], shares, amount, cost)
  {
  }

  /** So whatever balances and rejections a series of wallet runs on a due transaction meets, its ledger is that of
      the one-shot split so far, and a list is built again exactly until every address is paid. */
  lemma WalletRunsPayTheSplit(drain: Drain, isTrx: bool, tx: Transaction, envs: seq<Env>, cost: real)
    requires ValidDrain(drain) && SharesFor(drain, tx).Some?
    requires forall i :: 0 <= i < |envs| ==> Cost(isTrx, envs[i]) == cost
    ensures
      var shares, ledger := SharesFor(drain, tx).value, LedgerAfter(drain, isTrx, tx, envs);
      && |shares| >= 1 && OneShot(ledger, shares, tx.amount, cost)
      && (PayoutList(drain, Some(tx), Addresses(ledger)).None? <==> |ledger| == |shares|)
  {
    WalletRunsKeepPrefix(drain, isTrx, tx, envs, cost);
    PrefixIsOneShot(LedgerAfter(drain, isTrx, tx, envs), SharesFor(drain, tx).value, tx.amount, cost);
    hide LedgerAfter, SharesFor, Unpaid, IsPrefix;
  }

  /** The ledger of one transaction and the runs that pay it out.  `isTrx`: the coin is TRX itself. */
  class AmlWallet {
    const drain: Drain
    const isTrx: bool
    var ledger: Ledger

    constructor (drain: Drain, isTrx: bool)
      ensures this.drain == drain && this.isTrx == isTrx && ledger == []
    {
      this.drain, this.isTrx, ledger := drain, isTrx, [];
    }

    /** Take the bandwidth cost out of every entry in place; false if the balance does not cover it all. */
    method TakeCosts(env: Env, entries: array<Entry>) returns (covered: bool)
      modifies entries
      ensures forall k :: 0 <= k < entries.Length ==>
                entries[k] == old(entries[k]).(send := old(entries[k]).send - env.bandwidthCost)
      ensures covered <==> SumSends(old(entries[..])) <= env.balance
    {
      for i := 0 to entries.Length
        invariant forall k :: 0 <= k < i ==>
                    entries[k] == old(entries[k]).(send := old(entries[k]).send - env.bandwidthCost)
        invariant forall k :: i <= k < entries.Length ==> entries[k] == old(entries[k])
      {
        entries[i] := entries[i].(send := entries[i].send - env.bandwidthCost);
      }
      var total := Total(entries);
      CostsCancel(old(entries[..]), entries[..], env.bandwidthCost);
      hide SumSends;
      covered := total + env.bandwidthCost * entries.Length as real <= env.balance;
    }

    method Total(entries: array<Entry>) returns (total: real)
      ensures total == SumSends(entries[..])
    {
      total := 0.0;
      for i := 0 to entries.Length
        invariant total == SumSends(entries[..i])
      {
        total := total + entries[i].send;
        assert entries[..i + 1][..i] == entries[..i];
      }
      assert entries[..entries.Length] == entries[..];
    }

    /** One payout run.  A transfer rejected before it is recorded ends the run; what was recorded stays, and
        only a run that records everything returns its results. */
    method PayoutForTx(tx: Option<Transaction>, env: Env) returns (results: Option<seq<Payout>>)
      requires ValidDrain(drain)
      modifies this`ledger
      ensures
        var open := PayoutList(drain, tx, Addresses(old(ledger)));
        var paid := Paid(drain, isTrx, tx, env, old(ledger));
        && ledger == old(ledger) + paid
        && results == if open.Some? && |paid| == |open.value| then Some(paid) else None
      ensures RunPaysDue(drain, isTrx, tx, env, old(ledger), ledger)
    {
      PaidIsDue(drain, isTrx, tx, env, ledger);
      hide PayoutList, Addresses, ValidDrain, Accepted, Records, RunPaysDue, IsListOf, MayPay, Cost;
      var list := BuildPayoutList(drain, tx, Addresses(ledger));
      if list.None? {
        return None;
      }
      var entries := new Entry[|list.value|](i requires 0 <= i < |list.value| => list.value[i]);
      assert entries[..] == list.value;
      var covered := CoverRun(env, entries, list.value);
      if !covered {
        return None;
      }
      results := PayEntries(entries, env, list.value);
    }

    /** Whether the balances cover a run; the cost of a TRX transfer is taken out of its entry. */
    method CoverRun(env: Env, entries: array<Entry>, ghost open: seq<Entry>) returns (covered: bool)
      requires entries[..] == open
      modifies entries
      ensures covered <==> MayPay(isTrx, env, open)
      ensures covered ==>
                forall k :: 0 <= k < |open| ==> entries[k] == open[k].(send := open[k].send - Cost(isTrx, env))
    {
      hide SumSends;
      if env.balance < env.threshold {
        return false;
      }
      if isTrx {
        covered := TakeCosts(env, entries);
      } else {
        covered := env.feePerTransfer * entries.Length as real <= env.trxBalance || env.toppedUp;
      }
    }

    method PayEntries(entries: array<Entry>, env: Env, ghost open: seq<Entry>) returns (results: Option<seq<Payout>>)
      requires entries.Length == |open| > 0
      requires forall k :: 0 <= k < |open| ==> entries[k] == open[k].(send := open[k].send - Cost(isTrx, env))
      modifies this`ledger
      ensures
        var k := Accepted(env.transfer, |open|);
        var paid := Records(open, Cost(isTrx, env), env.transfer, k);
        && ledger == old(ledger) + paid && |paid| == k
        && results == if k == |open| then Some(paid) else None
    {
      var paid: seq<Payout> := [];
      for i := 0 to entries.Length
        invariant |paid| == i && ledger == old(ledger) + paid
        invariant forall k: nat :: k < i ==> env.transfer(k).Some?
        invariant paid == Records(open, Cost(isTrx, env), env.transfer, i)
      {
        var reply := env.transfer(i);
        if reply.None? {
          AcceptedIs(env.transfer, |open|, i);
          return None;
        }
        var payout := Payout(entries[i].address, entries[i].share, entries[i].send, reply.value);
        ledger := ledger + [payout];
        paid := paid + [payout];
      }
      AcceptedIs(env.transfer, |open|, |open|);
      results := Some(paid);
    }
  }

  lemma AcceptedIs(transfer: nat -> Option<bool>, n: nat, k: nat)
    requires k <= n && (forall i: nat :: i < k ==> transfer(i).Some?) && (k < n ==> transfer(k).None?)
    ensures Accepted(transfer, n) == k
  {
  }
}
