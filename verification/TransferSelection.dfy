/** Chain verification of one transaction: which of its transfer logs is the evidence. */
module TransferSelection {
  import opened Outcomes
  import opened MissionIdentity
  import opened Missions
  import opened Evidence
  import opened ChainFields
  import opened Attempts
  import opened Protocol
  import opened ProtocolInvariants
  import opened Deployment
  import Projection
  import Reconciliation

  const CHAIN_ID := 84532
  /** The topic of the event Transfer(address,address,uint256). */
  const TRANSFER_TOPIC := "0x" + "ddf252ad1be2c89b" + "69c2b068fc378daa" + "952ba7f163c4a116" + "28f55a4df523b3ef"

  /** Fields of a JSON-RPC answer; None is a value of another type or a missing one. */
  datatype Log =
    | NoMapping
    | Log(topics: Option<seq<Option<string>>>, address: Option<string>, data: Option<string>, logIndex: Option<string>,
          blockNumber: Option<string>, blockHash: Option<string>, transactionHash: Option<string>)

  datatype ReceiptAnswer =
    | NoReceipt
    | Malformed
    | Receipt(transactionHash: Option<string>, status: Option<string>, blockNumber: Option<string>,
              blockHash: Option<string>, logs: Option<seq<Log>>)

  datatype Rpc = Rpc(chainId: Option<string>, receipt: ReceiptAnswer, latestBlock: Option<string>)

  /** What one verifier expects of its transaction. */
  datatype Expected = Expected(transactionHash: string, token: string, sender: string, recipient: string, amount: int)

  // ---- one log ----

  datatype Parsed = Skip | Refused | Found(transfer: Transfer)

  predicate IsTransferLog(log: Log) {
    && log.Log? && log.topics.Some? && log.topics.value != []
    && log.topics.value[0].Some? && Lower(log.topics.value[0].value) == TRANSFER_TOPIC
  }

  /** The transfer a log states, if every field parses and it belongs to this receipt. */
  function StatedTransfer(x: Expected, log: Log, block: nat, blockHash: string, confirmations: nat): Option<Transfer>
    requires IsTransferLog(log)
  {
    var topics := log.topics.value;
    var token := LoweredHex(log.address, 40);
    if token.None? || |topics| != 3 then None
    else
      var (sender, recipient) := (TopicAddress(topics[1]), TopicAddress(topics[2]));
      var (amount, index) := (Amount(log.data), Quantity(log.logIndex));
      if sender.None? || recipient.None? || amount.None? || index.None? then None
      else if Quantity(log.blockNumber) != Some(block) || LoweredHex(log.blockHash, 64) != Some(blockHash)
        || LoweredHex(log.transactionHash, 64) != Some(x.transactionHash)
      then None
      else
        Some(Transfer(CHAIN_ID, token.value, sender.value, recipient.value, amount.value, x.transactionHash, blockHash,
               index.value, confirmations))
  }

  /** A log that cannot be parsed is skipped, unless it comes from the expected token. */
  function ParseLog(x: Expected, log: Log, block: nat, blockHash: string, confirmations: nat): Parsed {
    if !IsTransferLog(log) then Skip
    else
      match StatedTransfer(x, log, block, blockHash, confirmations)
      case Some(transfer) => Found(transfer)
      case None => if LoweredHex(log.address, 40) == Some(x.token) then Refused else Skip
  }

  /** The transfers of a log list, or None when one of its logs is refused. */
  function ParseLogs(x: Expected, logs: seq<Log>, block: nat, blockHash: string, confirmations: nat)
    : Option<seq<Transfer>>
  {
    if logs == [] then Some([])
    else
      var last := ParseLog(x, logs[|logs| - 1], block, blockHash, confirmations);
      match ParseLogs(x, logs[..|logs| - 1], block, blockHash, confirmations)
      case None => None
      case Some(before) =>
        match last
        case Skip => Some(before)
        case Refused => None
        case Found(transfer) => Some(before + [transfer])
  }

  // ---- what a log records, told from the way a node writes it ----

  /** The log of an ERC-20 transfer: the event's topic, sender and recipient as 32-byte words in this order, the amount
      as one word of data, and the place of the log in the chain. */
  predicate Records(log: Log, t: Transfer, block: nat)
    requires WellFormedTransfer(t)
  {
    && log.Log? && log.topics.Some? && |log.topics.value| == 3
    && log.topics.value[0].Some? && Lower(log.topics.value[0].value) == TRANSFER_TOPIC
    && SpellsAddress(log.topics.value[1], t.sender) && SpellsAddress(log.topics.value[2], t.recipient)
    && Spells(log.address, t.token[2..]) && |Numeral(t.amount)| <= 64 && Spells(log.data, Padded(t.amount, 64))
    && Spells(log.logIndex, Numeral(t.logIndex)) && Spells(log.blockNumber, Numeral(block))
    && Spells(log.blockHash, t.blockHash[2..]) && Spells(log.transactionHash, t.transactionHash[2..])
  }

  /** The log records this transfer of the expected transaction in this block. */
  predicate Belongs(x: Expected, log: Log, t: Transfer, block: nat, blockHash: string, confirmations: nat) {
    && WellFormedTransfer(t) && Records(log, t, block)
    && t.chainId == CHAIN_ID && t.transactionHash == x.transactionHash && t.blockHash == blockHash
    && t.confirmations == confirmations
  }

  /** A transfer log of the expected token that records no transfer of the expected transaction in this block. */
  ghost predicate Broken(x: Expected, log: Log, block: nat, blockHash: string, confirmations: nat) {
    && IsTransferLog(log) && log.address.Some? && IsHexText(log.address.value, 40) && Lower(log.address.value) == x.token
    && forall t: Transfer :: !Belongs(x, log, t, block, blockHash, confirmations)
  }

  /** Parsing inverts writing: a log parses to a transfer if and only if it records this transfer, whatever the letter
      case of its digits, and it is refused if and only if it is broken. */
  lemma ParsingIsExact(x: Expected, log: Log, block: nat, blockHash: string, confirmations: nat, t: Transfer)
    ensures ParseLog(x, log, block, blockHash, confirmations) == Found(t) <==>
      Belongs(x, log, t, block, blockHash, confirmations)
    ensures ParseLog(x, log, block, blockHash, confirmations).Refused? <==> Broken(x, log, block, blockHash, confirmations)
  {
    FoundIsRecorded(x, log, block, blockHash, confirmations, t);
    var parsed := ParseLog(x, log, block, blockHash, confirmations);
    if parsed.Found? {
      FoundIsRecorded(x, log, block, blockHash, confirmations, parsed.transfer);
    } else {
      forall t: Transfer ensures !Belongs(x, log, t, block, blockHash, confirmations) {
        FoundIsRecorded(x, log, block, blockHash, confirmations, t);
      }
    }
    hide Belongs, StatedTransfer;
  }

  lemma FoundIsRecorded(x: Expected, log: Log, block: nat, blockHash: string, confirmations: nat, t: Transfer)
    ensures ParseLog(x, log, block, blockHash, confirmations) == Found(t) <==>
      Belongs(x, log, t, block, blockHash, confirmations)
  {
    hide Spells, SpellsAddress, Padded, Numeral, Lower, IsHexText, LoweredHex, Quantity, Amount, TopicAddress;
    if ParseLog(x, log, block, blockHash, confirmations) == Found(t) {
      StatedTransferIsWellFormed(x, log, block, blockHash, confirmations);
    }
    if WellFormedTransfer(t) && IsTransferLog(log) && |log.topics.value| == 3 {
      FieldsAreExact(log, t, block);
    }
    hide WellFormedTransfer, IsLoweredHex;
  }

  lemma FieldsAreExact(log: Log, t: Transfer, block: nat)
    requires WellFormedTransfer(t) && IsTransferLog(log) && |log.topics.value| == 3
    ensures LoweredHex(log.address, 40) == Some(t.token) <==> Spells(log.address, t.token[2..])
    ensures TopicAddress(log.topics.value[1]) == Some(t.sender) <==> SpellsAddress(log.topics.value[1], t.sender)
    ensures TopicAddress(log.topics.value[2]) == Some(t.recipient) <==> SpellsAddress(log.topics.value[2], t.recipient)
    ensures Amount(log.data) == Some(t.amount) <==> |Numeral(t.amount)| <= 64 && Spells(log.data, Padded(t.amount, 64))
    ensures Quantity(log.logIndex) == Some(t.logIndex) <==> Spells(log.logIndex, Numeral(t.logIndex))
    ensures Quantity(log.blockNumber) == Some(block) <==> Spells(log.blockNumber, Numeral(block))
    ensures LoweredHex(log.blockHash, 64) == Some(t.blockHash) <==> Spells(log.blockHash, t.blockHash[2..])
    ensures LoweredHex(log.transactionHash, 64) == Some(t.transactionHash) <==>
      Spells(log.transactionHash, t.transactionHash[2..])
  {
    hide Spells, SpellsAddress, Padded, Numeral, LoweredHex, Quantity, Amount, TopicAddress, IsLoweredHex;
    LoweredHexIsExact(log.address, t.token, 40);
    TopicAddressIsExact(log.topics.value[1], t.sender);
    TopicAddressIsExact(log.topics.value[2], t.recipient);
    AmountIsExact(log.data, t.amount);
    QuantityIsExact(log.logIndex, t.logIndex);
    QuantityIsExact(log.blockNumber, block);
    LoweredHexIsExact(log.blockHash, t.blockHash, 64);
    LoweredHexIsExact(log.transactionHash, t.transactionHash, 64);
  }

  // ---- writing a log ----

  function Word(address: string): string
    requires |address| >= 2
  {
    "0x" + Zeros(24) + address[2..]
  }

  /** The log a node writes for a transfer. */
  function LogOf(t: Transfer, block: nat): Log
    requires WellFormedTransfer(t)
  {
    Log(Some([Some(TRANSFER_TOPIC), Some(Word(t.sender)), Some(Word(t.recipient))]), Some(t.token),
      Some("0x" + Padded(t.amount, 64)), Some("0x" + Numeral(t.logIndex)), Some("0x" + Numeral(block)),
      Some(t.blockHash), Some(t.transactionHash))
  }

  /** Round trip: the log written for a transfer of less than 2^256 base units parses to this transfer. */
  lemma WrittenLogParses(x: Expected, t: Transfer, block: nat)
    requires WellFormedTransfer(t) && t.chainId == CHAIN_ID && t.transactionHash == x.transactionHash
    requires t.amount < Pow16(64)
    ensures ParseLog(x, LogOf(t, block), block, t.blockHash, t.confirmations) == Found(t)
  {
    hide ParseLog, Numeral, Padded, HexValue;
    NumeralFits(t.amount, 64);
    WrittenLogRecords(t, block);
    ParsingIsExact(x, LogOf(t, block), block, t.blockHash, t.confirmations, t);
  }

  lemma WrittenLogRecords(t: Transfer, block: nat)
    requires WellFormedTransfer(t) && |Numeral(t.amount)| <= 64
    ensures Records(LogOf(t, block), t, block)
  {
    hide Spells, SpellsAddress, IsNumeralText, Numeral, Padded, IsLoweredHex;
    LoweredTextSpells(t.token, 40);
    LoweredTextSpells(t.blockHash, 64);
    LoweredTextSpells(t.transactionHash, 64);
    WordSpellsAddress(t.sender);
    WordSpellsAddress(t.recipient);
    PaddedIsRead(t.amount, 64);
    DigitsSpell(Padded(t.amount, 64));
    NumeralIsRead(t.logIndex);
    DigitsSpell(Numeral(t.logIndex));
    NumeralIsRead(block);
    DigitsSpell(Numeral(block));
    TopicIsLowered();
  }

  lemma TopicIsLowered()
    ensures Lower(TRANSFER_TOPIC) == TRANSFER_TOPIC
  {
    assert Lower("0x") == "0x";
    assert Lower("ddf252ad1be2c89b") == "ddf252ad1be2c89b";
    assert Lower("69c2b068fc378daa") == "69c2b068fc378daa";
    assert Lower("952ba7f163c4a116") == "952ba7f163c4a116";
    assert Lower("28f55a4df523b3ef") == "28f55a4df523b3ef";
    LowerOfSum("0x" + "ddf252ad1be2c89b" + "69c2b068fc378daa" + "952ba7f163c4a116", "28f55a4df523b3ef");
    LowerOfSum("0x" + "ddf252ad1be2c89b" + "69c2b068fc378daa", "952ba7f163c4a116");
    LowerOfSum("0x" + "ddf252ad1be2c89b", "69c2b068fc378daa");
    LowerOfSum("0x", "ddf252ad1be2c89b");
  }

  lemma LowerOfSum(a: string, b: string)
    ensures Lower(a + b) == Lower(a) + Lower(b)
  {
  }

  lemma DigitsSpell(digits: string)
    requires IsNumeralText(digits)
    ensures Spells(Some("0x" + digits), digits)
  {
    forall i | 0 <= i < |digits| ensures LowerChar(digits[i]) == digits[i] {
      assert IsLowDigit(digits[i]);
    }
    assert Lower(digits) == digits && ("0x" + digits)[2..] == digits;
  }

  lemma LoweredTextSpells(s: string, digits: nat)
    requires IsLoweredHex(s, digits)
    ensures Spells(Some(s), s[2..])
  {
    assert Lower(s[2..]) == s[2..];
  }

  lemma WordSpellsAddress(address: string)
    requires IsLoweredHex(address, 40)
    ensures SpellsAddress(Some(Word(address)), address)
  {
    var word := Word(address);
    assert word[26..] == address[2..] && Lower(address[2..]) == address[2..];
    forall i | 2 <= i < 66 ensures IsHexDigit(word[i]) {
      assert word[i] == if i < 26 then '0' else address[i - 24];
    }
  }

  // ---- selection ----

  function Filter<T>(keep: T -> bool, s: seq<T>): seq<T> {
    if s == [] then []
    else
      Filter(keep, s[..|s| - 1]) + if keep(s[|s| - 1]) then [s[|s| - 1]] else []
  }

  function OfToken(x: Expected): Transfer -> bool {
    (t: Transfer) => t.token == x.token
  }

  function Exactly(x: Expected): Transfer -> bool {
    (t: Transfer) => t.token == x.token && t.sender == x.sender && t.recipient == x.recipient && t.amount == x.amount
  }

  function Select(x: Expected, all: seq<Transfer>, expected: seq<Transfer>): Observation {
    if |expected| == 1 then VerifiedTransfer(expected[0])
    else if |expected| > 1 then
      var exact := Filter(Exactly(x), expected);
      if |exact| == 1 then VerifiedTransfer(exact[0]) else Ambiguous
    else if |all| == 1 then VerifiedTransfer(all[0])
    else if |all| > 1 then Ambiguous
    else NotFound
  }

  /** The observation made of a receipt's logs; None is an exception. */
  function ObserveLogs(x: Expected, logs: seq<Log>, block: nat, blockHash: string, confirmations: nat)
    : Option<Observation>
  {
    match ParseLogs(x, logs, block, blockHash, confirmations)
    case None => None
    case Some(all) => Some(Select(x, all, Filter(OfToken(x), all)))
  }

  /** The loop over the logs, with its two growing lists. */
  method ObserveReceiptLogs(x: Expected, logs: seq<Log>, block: nat, blockHash: string, confirmations: nat)
    returns (r: Option<Observation>)
    ensures r == ObserveLogs(x, logs, block, blockHash, confirmations)
  {
    var all: seq<Transfer>, expected: seq<Transfer> := [], [];
    var i := 0;
    while i < |logs|
      invariant 0 <= i <= |logs|
      invariant ParseLogs(x, logs[..i], block, blockHash, confirmations) == Some(all)
      invariant expected == Filter(OfToken(x), all)
    {
      var parsed := ParseLog(x, logs[i], block, blockHash, confirmations);
      assert logs[..i + 1][..i] == logs[..i];
      if parsed.Refused? {
        RefusedStays(x, logs, i + 1, block, blockHash, confirmations);
        return None;
      }
      if parsed.Found? {
        assert (all + [parsed.transfer])[..|all|] == all;
        all := all + [parsed.transfer];
        if parsed.transfer.token == x.token {
          expected := expected + [parsed.transfer];
        }
      }
      i := i + 1;
    }
    assert logs[..|logs|] == logs;
    r := Some(Select(x, all, expected));
  }

  lemma {:induction false} RefusedStays(
    x: Expected, logs: seq<Log>, n: nat, block: nat, blockHash: string, confirmations: nat)
    requires n <= |logs| && ParseLogs(x, logs[..n], block, blockHash, confirmations).None?
    ensures ParseLogs(x, logs, block, blockHash, confirmations).None?
    decreases |logs|
  {
    if n < |logs| {
      assert logs[..|logs| - 1][..n] == logs[..n];
      RefusedStays(x, logs[..|logs| - 1], n, block, blockHash, confirmations);
    } else {
      assert logs[..n] == logs;
    }
  }

  // ---- the whole observation ----

  /** What the verifier makes of the chain's answers; confirmations count the receipt's own block. */
  function Observed(x: Expected, rpc: Rpc): Option<Observation> {
    if Quantity(rpc.chainId) != Some(CHAIN_ID) then None
    else
      match rpc.receipt
      case NoReceipt => Some(NotFound)
      case Malformed => None
      case Receipt(transactionHash, status, blockNumber, blockHash, logs) =>
        var (block, latest, hash) := (Quantity(blockNumber), Quantity(rpc.latestBlock), LoweredHex(blockHash, 64));
        if LoweredHex(transactionHash, 64) != Some(x.transactionHash) || Quantity(status) != Some(1) then None
        else if block.None? || hash.None? || latest.None? || latest.value < block.value || logs.None? then None
        else ObserveLogs(x, logs.value, block.value, hash.value, latest.value - block.value + 1)
  }

  method Observe(x: Expected, rpc: Rpc) returns (r: Option<Observation>)
    ensures r == Observed(x, rpc)
  {
    if Quantity(rpc.chainId) != Some(CHAIN_ID) || rpc.receipt.Malformed? { return None; }
    if rpc.receipt.NoReceipt? { return Some(NotFound); }
    if LoweredHex(rpc.receipt.transactionHash, 64) != Some(x.transactionHash) { return None; }
    if Quantity(rpc.receipt.status) != Some(1) { return None; }
    var block, hash := Quantity(rpc.receipt.blockNumber), LoweredHex(rpc.receipt.blockHash, 64);
    if block.None? || hash.None? { return None; }
    var latest := Quantity(rpc.latestBlock);
    if latest.None? || latest.value < block.value { return None; }
    var confirmations := latest.value - block.value + 1;
    if rpc.receipt.logs.None? { return None; }
    r := ObserveReceiptLogs(x, rpc.receipt.logs.value, block.value, hash.value, confirmations);
  }

  // ---- filtering ----

  lemma {:induction false} FilterConcatenates<T>(keep: T -> bool, a: seq<T>, b: seq<T>)
    ensures Filter(keep, a + b) == Filter(keep, a) + Filter(keep, b)
  {
    if b == [] {
      assert a + b == a;
    } else {
      assert (a + b)[..|a + b| - 1] == a + b[..|b| - 1];
      FilterConcatenates(keep, a, b[..|b| - 1]);
    }
  }

  lemma FilterOfOne<T>(keep: T -> bool, e: T)
    ensures Filter(keep, [e]) == if keep(e) then [e] else []
  {
    assert [e][..0] == [];
  }

  lemma FilterWithout<T>(keep: T -> bool, t: seq<T>, k: nat)
    requires k < |t|
    ensures multiset(Filter(keep, t)) ==
      multiset(Filter(keep, t[..k] + t[k + 1..])) + multiset(if keep(t[k]) then [t[k]] else [])
  {
    hide Filter;
    var (before, e, after) := (t[..k], t[k], t[k + 1..]);
    assert t == before + [e] + after;
    FilterConcatenates(keep, before, after);
    FilterConcatenates(keep, before + [e], after);
    FilterConcatenates(keep, before, [e]);
    FilterOfOne(keep, e);
    var (f, one, g) := (Filter(keep, before), Filter(keep, [e]), Filter(keep, after));
    assert Filter(keep, t) == f + one + g && Filter(keep, before + after) == f + g;
  }

  lemma RemovingKeepsBags<T>(s: seq<T>, t: seq<T>) returns (k: nat)
    requires s != [] && multiset(s) == multiset(t)
    ensures k < |t| && t[k] == s[|s| - 1]
    ensures multiset(s[..|s| - 1]) == multiset(t[..k] + t[k + 1..])
  {
    var before, e := s[..|s| - 1], s[|s| - 1];
    assert s == before + [e];
    assert e in multiset(t);
    k :| 0 <= k < |t| && t[k] == e;
    BagWithout(t, k);
    BagsCancel(multiset(before), multiset(t[..k] + t[k + 1..]), e);
  }

  lemma BagsCancel<T>(a: multiset<T>, b: multiset<T>, e: T)
    requires a + multiset{e} == b + multiset{e}
    ensures a == b
  {
    assert a == (a + multiset{e}) - multiset{e} == b;
  }

  lemma BagWithout<T>(t: seq<T>, k: nat)
    requires k < |t|
    ensures multiset(t) == multiset(t[..k] + t[k + 1..]) + multiset{t[k]}
  {
    assert t == t[..k] + [t[k]] + t[k + 1..];
  }

  lemma {:induction false} FilteringKeepsBags<T>(keep: T -> bool, s: seq<T>, t: seq<T>)
    requires multiset(s) == multiset(t)
    ensures multiset(Filter(keep, s)) == multiset(Filter(keep, t))
    decreases |s|
  {
    hide Filter;
    if s == [] {
      assert |multiset(t)| == |t|;
      assert s == t;
    } else {
      var k := RemovingKeepsBags(s, t);
      FilteringKeepsBags(keep, s[..|s| - 1], t[..k] + t[k + 1..]);
      FilterWithout(keep, t, k);
      FilterWithout(keep, s, |s| - 1);
      assert s[..|s| - 1] + s[|s| - 1 + 1..] == s[..|s| - 1];
    }
  }

  lemma FilterForgetsOrder<T>(keep: T -> bool, s: seq<T>, t: seq<T>)
    requires multiset(s) == multiset(t)
    ensures multiset(Filter(keep, s)) == multiset(Filter(keep, t))
    ensures |Filter(keep, s)| == |Filter(keep, t)|
    ensures |Filter(keep, s)| == 1 ==> Filter(keep, s)[0] == Filter(keep, t)[0]
  {
    FilteringKeepsBags(keep, s, t);
    var f, g := Filter(keep, s), Filter(keep, t);
    hide Filter;
    assert |multiset(f)| == |f| && |multiset(g)| == |g|;
    if |f| == 1 {
      assert f[0] in multiset(g);
    }
  }

  lemma {:induction false} FilterTwice<T>(keep: T -> bool, wider: T -> bool, s: seq<T>)
    requires forall e :: keep(e) ==> wider(e)
    ensures Filter(keep, Filter(wider, s)) == Filter(keep, s)
  {
    if s != [] {
      var before, last := s[..|s| - 1], s[|s| - 1];
      FilterTwice(keep, wider, before);
      var f := Filter(wider, before);
      if wider(last) {
        assert (f + [last])[..|f|] == f;
      } else {
        assert f + [] == f;
      }
    }
  }

  lemma {:induction false} FilterKeeps<T>(keep: T -> bool, s: seq<T>, i: nat)
    requires i < |Filter(keep, s)|
    ensures keep(Filter(keep, s)[i]) && Filter(keep, s)[i] in s
  {
    if i < |Filter(keep, s[..|s| - 1])| {
      FilterKeeps(keep, s[..|s| - 1], i);
    }
  }

  // ---- main results ----

  /** The transfer chosen is the intended one exactly when exactly one parsed transfer is. */
  lemma SelectionIsExact(x: Expected, all: seq<Transfer>)
    ensures var o := Select(x, all, Filter(OfToken(x), all));
      (o.VerifiedTransfer? && Exactly(x)(o.transfer)) <==> |Filter(Exactly(x), all)| == 1
  {
    var expected, exact := Filter(OfToken(x), all), Filter(Exactly(x), all);
    FilterTwice(Exactly(x), OfToken(x), all);
    assert Filter(Exactly(x), expected) == exact;
    if |expected| == 1 {
      assert expected[..0] == [] && Filter(Exactly(x), expected[..0]) == [];
    } else if |expected| > 1 {
      if |exact| == 1 { FilterKeeps(Exactly(x), expected, 0); }
    } else {
      assert expected == [] && exact == [];
      if |all| == 1 {
        assert all[..0] == [];
        assert !OfToken(x)(all[0]);
      }
    }
  }

  /** A transfer is chosen exactly when one candidate is left, one of the expected token if there is any; nothing is
      found exactly when the receipt states no transfer at all. */
  lemma SelectionNeedsOneCandidate(x: Expected, all: seq<Transfer>)
    ensures var (expected, exact) := (Filter(OfToken(x), all), Filter(Exactly(x), all));
      && |exact| <= |expected|
      && (Select(x, all, expected).VerifiedTransfer? <==>
            |exact| == 1 || |expected| == 1 || (|expected| == 0 && |all| == 1))
      && (Select(x, all, expected).NotFound? <==> all == [])
      && (Select(x, all, expected).VerifiedTransfer? && expected != [] ==>
            Select(x, all, expected).transfer.token == x.token)
  {
    FilterTwice(Exactly(x), OfToken(x), all);
    FilterShrinks(Exactly(x), Filter(OfToken(x), all));
    if |Filter(OfToken(x), all)| == 1 { FilterKeeps(OfToken(x), all, 0); }
    if |Filter(Exactly(x), all)| == 1 { FilterKeeps(Exactly(x), all, 0); }
  }

  lemma {:induction false} FilterShrinks<T>(keep: T -> bool, s: seq<T>)
    ensures |Filter(keep, s)| <= |s|
  {
    if s != [] {
      FilterShrinks(keep, s[..|s| - 1]);
    }
  }

  lemma SelectionForgetsOrder(x: Expected, all: seq<Transfer>, all': seq<Transfer>)
    requires multiset(all) == multiset(all')
    ensures Select(x, all, Filter(OfToken(x), all)) == Select(x, all', Filter(OfToken(x), all'))
  {
    FilterForgetsOrder(OfToken(x), all, all');
    FilterForgetsOrder(Exactly(x), Filter(OfToken(x), all), Filter(OfToken(x), all'));
    assert |multiset(all)| == |multiset(all')|;
    if |all| == 1 {
      assert all[0] in multiset(all');
    }
  }

  function States(x: Expected, block: nat, blockHash: string, confirmations: nat, t: Transfer): Log -> bool {
    (log: Log) => ParseLog(x, log, block, blockHash, confirmations) == Found(t)
  }

  function Refuses(x: Expected, block: nat, blockHash: string, confirmations: nat): Log -> bool {
    (log: Log) => ParseLog(x, log, block, blockHash, confirmations).Refused?
  }

  lemma {:induction false} ParsingCounts(
    x: Expected, logs: seq<Log>, block: nat, blockHash: string, confirmations: nat, t: Transfer)
    ensures var parsed := ParseLogs(x, logs, block, blockHash, confirmations);
      && (parsed.Some? <==> Filter(Refuses(x, block, blockHash, confirmations), logs) == [])
      && (parsed.Some? ==>
            multiset(parsed.value)[t] == |Filter(States(x, block, blockHash, confirmations, t), logs)|)
  {
    if logs != [] {
      ParsingCounts(x, logs[..|logs| - 1], block, blockHash, confirmations, t);
    }
  }

  lemma ParsingForgetsOrder(
    x: Expected, logs: seq<Log>, logs': seq<Log>, block: nat, blockHash: string, confirmations: nat, t: Transfer)
    requires multiset(logs) == multiset(logs')
    ensures var parsed := ParseLogs(x, logs, block, blockHash, confirmations);
      var parsed' := ParseLogs(x, logs', block, blockHash, confirmations);
      && (parsed.Some? <==> parsed'.Some?)
      && (parsed.Some? ==> multiset(parsed.value)[t] == multiset(parsed'.value)[t])
  {
    ParsingCounts(x, logs, block, blockHash, confirmations, t);
    ParsingCounts(x, logs', block, blockHash, confirmations, t);
    FilterForgetsOrder(Refuses(x, block, blockHash, confirmations), logs, logs');
    FilterForgetsOrder(States(x, block, blockHash, confirmations, t), logs, logs');
  }

  /** The observation does not depend on the order of the logs. */
  lemma ObservationForgetsLogOrder(
    x: Expected, logs: seq<Log>, logs': seq<Log>, block: nat, blockHash: string, confirmations: nat)
    requires multiset(logs) == multiset(logs')
    ensures ObserveLogs(x, logs, block, blockHash, confirmations) == ObserveLogs(x, logs', block, blockHash, confirmations)
  {
    var parsed := ParseLogs(x, logs, block, blockHash, confirmations);
    var parsed' := ParseLogs(x, logs', block, blockHash, confirmations);
    ParsingForgetsOrder(x, logs, logs', block, blockHash, confirmations, Transfer(0, "", "", "", 0, "", "", 0, 0));
    if parsed.Some? {
      forall t: Transfer ensures multiset(parsed.value)[t] == multiset(parsed'.value)[t] {
        ParsingForgetsOrder(x, logs, logs', block, blockHash, confirmations, t);
      }
      assert multiset(parsed.value) == multiset(parsed'.value);
      SelectionForgetsOrder(x, parsed.value, parsed'.value);
    }
  }

  // ---- what the chain's answers amount to ----

  /** The answers place the expected transaction, successful, in a block of the expected chain that is not later
      than the latest one. */
  predicate Mined(x: Expected, rpc: Rpc) {
    && Quantity(rpc.chainId) == Some(CHAIN_ID) && rpc.receipt.Receipt?
    && LoweredHex(rpc.receipt.transactionHash, 64) == Some(x.transactionHash) && Quantity(rpc.receipt.status) == Some(1)
    && Quantity(rpc.receipt.blockNumber).Some? && Quantity(rpc.latestBlock).Some?
    && Quantity(rpc.receipt.blockNumber).value <= Quantity(rpc.latestBlock).value
  }

  /** Blocks from the receipt's own up to the latest, both counted. */
  function Depth(x: Expected, rpc: Rpc): (d: nat)
    requires Mined(x, rpc)
    ensures d >= 1
  {
    Quantity(rpc.latestBlock).value - Quantity(rpc.receipt.blockNumber).value + 1
  }

  /** Every transfer that the receipt's logs state, or None when it cannot be read. */
  function Transfers(x: Expected, rpc: Rpc): Option<seq<Transfer>>
    requires Mined(x, rpc)
  {
    var hash := LoweredHex(rpc.receipt.blockHash, 64);
    if hash.None? || rpc.receipt.logs.None? then None
    else ParseLogs(x, rpc.receipt.logs.value, Quantity(rpc.receipt.blockNumber).value, hash.value, Depth(x, rpc))
  }

  /** An observation is made exactly of an absent receipt or of a readable one on the expected chain; and a transfer
      reported as verified is one the receipt states, of the expected transaction, successful on chain 84532, with
      as many confirmations as the receipt's block is deep. */
  lemma ObservedTransferIsMined(x: Expected, rpc: Rpc)
    ensures Observed(x, rpc).Some? <==>
      || (Quantity(rpc.chainId) == Some(CHAIN_ID) && rpc.receipt.NoReceipt?)
      || (Mined(x, rpc) && Transfers(x, rpc).Some?)
    ensures var o := Observed(x, rpc);
      o.Some? && o.value.VerifiedTransfer? ==>
        && Mined(x, rpc) && Transfers(x, rpc).Some? && o.value.transfer in Transfers(x, rpc).value
        && o.value.transfer.chainId == 84532 && o.value.transfer.transactionHash == x.transactionHash
        && o.value.transfer.confirmations
             == Quantity(rpc.latestBlock).value - Quantity(rpc.receipt.blockNumber).value + 1
        && WellFormedTransfer(o.value.transfer)
  {
    if Mined(x, rpc) && Transfers(x, rpc).Some? && Observed(x, rpc).value.VerifiedTransfer? {
      var (logs, block) := (rpc.receipt.logs.value, Quantity(rpc.receipt.blockNumber).value);
      var hash := LoweredHex(rpc.receipt.blockHash, 64).value;
      hide ParseLogs, Quantity, LoweredHex, WellFormedTransfer;
      SelectedWasParsed(x, Transfers(x, rpc).value);
      ParsedTransfersFitReceipt(x, logs, block, hash, Depth(x, rpc), Observed(x, rpc).value.transfer);
    }
  }

  /** The verifier looks for what the effect intends. */
  predicate LooksFor(x: Expected, e: EffectRecord, sender: string) {
    x.token == e.token && x.sender == sender && x.recipient == e.recipient && x.amount == e.amount && e.chainId == CHAIN_ID
  }

  lemma ExactLogsAreUnique(
    x: Expected, e: EffectRecord, sender: string, minimum: int, logs: seq<Log>, block: nat, blockHash: string,
    confirmations: nat)
    requires LooksFor(x, e, sender) && minimum >= 1
    requires ObserveLogs(x, logs, block, blockHash, confirmations).Some?
    ensures var o := ObserveLogs(x, logs, block, blockHash, confirmations).value;
      var all := ParseLogs(x, logs, block, blockHash, confirmations).value;
      Reconciliation.Weigh(e, sender, minimum, o) == Reconciliation.Exact <==>
        |Filter(Exactly(x), all)| == 1 && minimum <= confirmations
    ensures var o := ObserveLogs(x, logs, block, blockHash, confirmations).value;
      var all := ParseLogs(x, logs, block, blockHash, confirmations).value;
      var expected := Filter(OfToken(x), all);
      Reconciliation.Weigh(e, sender, minimum, o) == Reconciliation.Mismatch <==>
        |Filter(Exactly(x), all)| == 0 && (|expected| == 1 || (|expected| == 0 && |all| == 1))
  {
    var all := ParseLogs(x, logs, block, blockHash, confirmations).value;
    var o := ObserveLogs(x, logs, block, blockHash, confirmations).value;
    SelectionIsExact(x, all);
    SelectionNeedsOneCandidate(x, all);
    if o.VerifiedTransfer? {
      SelectedWasParsed(x, all);
      ParsedTransfersFitReceipt(x, logs, block, blockHash, confirmations, o.transfer);
    }
  }

  lemma SelectedWasParsed(x: Expected, all: seq<Transfer>)
    ensures var o := Select(x, all, Filter(OfToken(x), all));
      o.VerifiedTransfer? ==> o.transfer in all
  {
    var expected := Filter(OfToken(x), all);
    if |expected| == 1 {
      FilterKeeps(OfToken(x), all, 0);
    } else if |expected| > 1 && |Filter(Exactly(x), expected)| == 1 {
      FilterKeeps(Exactly(x), expected, 0);
      var t := Filter(Exactly(x), expected)[0];
      var i :| 0 <= i < |expected| && expected[i] == t;
      FilterKeeps(OfToken(x), all, i);
    }
  }

  /** A receipt can be read if and only if none of its logs is broken, and then the transfers found are exactly those
      that some log of it records. */
  lemma {:induction false} ParsedTransfersAreRecorded(
    x: Expected, logs: seq<Log>, block: nat, blockHash: string, confirmations: nat, t: Transfer)
    ensures var parsed := ParseLogs(x, logs, block, blockHash, confirmations);
      && (parsed.Some? <==> forall i :: 0 <= i < |logs| ==> !Broken(x, logs[i], block, blockHash, confirmations))
      && (parsed.Some? ==>
            (t in parsed.value <==>
               exists i :: 0 <= i < |logs| && Belongs(x, logs[i], t, block, blockHash, confirmations)))
  {
    if logs != [] {
      hide Broken, Belongs, ParseLog;
      var (before, last) := (logs[..|logs| - 1], logs[|logs| - 1]);
      ParsedTransfersAreRecorded(x, before, block, blockHash, confirmations, t);
      ParsingIsExact(x, last, block, blockHash, confirmations, t);
      LastOfLogs(x, logs, block, blockHash, confirmations, t);
    }
  }

  lemma LastOfLogs(x: Expected, logs: seq<Log>, block: nat, blockHash: string, confirmations: nat, t: Transfer)
    requires logs != []
    ensures var (before, last) := (logs[..|logs| - 1], logs[|logs| - 1]);
      && ((forall i :: 0 <= i < |logs| ==> !Broken(x, logs[i], block, blockHash, confirmations)) <==>
            (forall i :: 0 <= i < |before| ==> !Broken(x, before[i], block, blockHash, confirmations))
            && !Broken(x, last, block, blockHash, confirmations))
      && ((exists i :: 0 <= i < |logs| && Belongs(x, logs[i], t, block, blockHash, confirmations)) <==>
            (exists i :: 0 <= i < |before| && Belongs(x, before[i], t, block, blockHash, confirmations))
            || Belongs(x, last, t, block, blockHash, confirmations))
  {
    hide Broken, Belongs;
    var (before, last) := (logs[..|logs| - 1], logs[|logs| - 1]);
    forall i | 0 <= i < |before| ensures logs[i] == before[i] {
    }
    assert logs[|before|] == last;
    if i :| 0 <= i < |before| && Belongs(x, before[i], t, block, blockHash, confirmations) {
      assert Belongs(x, logs[i], t, block, blockHash, confirmations);
    }
    if i :| 0 <= i < |logs| && Belongs(x, logs[i], t, block, blockHash, confirmations) {
      assert i < |before| ==> Belongs(x, before[i], t, block, blockHash, confirmations);
    }
  }

  lemma {:induction false} ParsedTransfersFitReceipt(
    x: Expected, logs: seq<Log>, block: nat, blockHash: string, confirmations: nat, t: Transfer)
    requires ParseLogs(x, logs, block, blockHash, confirmations).Some?
    requires t in ParseLogs(x, logs, block, blockHash, confirmations).value
    ensures t.chainId == CHAIN_ID && t.confirmations == confirmations && t.amount >= 1
    ensures t.transactionHash == x.transactionHash && t.blockHash == blockHash && WellFormedTransfer(t)
  {
    var before := ParseLogs(x, logs[..|logs| - 1], block, blockHash, confirmations);
    if t in before.value {
      ParsedTransfersFitReceipt(x, logs[..|logs| - 1], block, blockHash, confirmations, t);
    } else {
      StatedTransferIsWellFormed(x, logs[|logs| - 1], block, blockHash, confirmations);
    }
  }

  lemma StatedTransferIsWellFormed(x: Expected, log: Log, block: nat, blockHash: string, confirmations: nat)
    requires IsTransferLog(log) && StatedTransfer(x, log, block, blockHash, confirmations).Some?
    ensures WellFormedTransfer(StatedTransfer(x, log, block, blockHash, confirmations).value)
  {
    var t := StatedTransfer(x, log, block, blockHash, confirmations).value;
    LoweredHexIsLowered(log.address.value, 40);
    LoweredHexIsLowered(log.blockHash.value, 64);
    LoweredHexIsLowered(log.transactionHash.value, 64);
    TopicAddressIsLowered(log.topics.value[1]);
    TopicAddressIsLowered(log.topics.value[2]);
    hide IsHexText, Lower, TopicAddress, HexValue;
  }

  lemma LoweredHexIsLowered(s: string, digits: nat)
    requires IsHexText(s, digits)
    ensures IsLoweredHex(Lower(s), digits)
  {
    LowerIsAddress(s);
  }

  lemma TopicAddressIsLowered(v: Option<string>)
    ensures TopicAddress(v).Some? ==> IsLoweredHex(TopicAddress(v).value, 40)
  {
    if TopicAddress(v).Some? {
      var address := TopicAddress(v).value;
      assert forall i :: 2 <= i < 42 ==> address[i] == LowerChar(v.value[i + 24]);
      assert Lower(address) == address;
    }
  }

  /** Exactly one of the receipt's transfers is the intended one, and the receipt is deep enough. */
  predicate UniqueAndDeep(x: Expected, rpc: Rpc, minimum: int) {
    && Mined(x, rpc) && Transfers(x, rpc).Some?
    && |Filter(Exactly(x), Transfers(x, rpc).value)| == 1 && minimum <= Depth(x, rpc)
  }

  /** None of the receipt's transfers is the intended one, and a single candidate is left. */
  predicate OneOther(x: Expected, rpc: Rpc) {
    && Mined(x, rpc) && Transfers(x, rpc).Some?
    && var all := Transfers(x, rpc).value;
    && var expected := Filter(OfToken(x), all);
    && Filter(Exactly(x), all) == [] && (|expected| == 1 || (|expected| == 0 && |all| == 1))
  }

  // ---- the intended payment, once ----

  /** The transfer the verifier expects, at this place in the chain. */
  function PaymentOf(x: Expected, index: nat, blockHash: string, confirmations: nat): Transfer {
    Transfer(CHAIN_ID, x.token, x.sender, x.recipient, x.amount, x.transactionHash, blockHash, index, confirmations)
  }

  /** The log records the intended payment. */
  ghost predicate Pays(x: Expected, log: Log, block: nat, blockHash: string, confirmations: nat) {
    exists index: nat :: Belongs(x, log, PaymentOf(x, index, blockHash, confirmations), block, blockHash, confirmations)
  }

  function ParsesAsPayment(x: Expected, block: nat, blockHash: string, confirmations: nat): Log -> bool {
    (log: Log) =>
      var parsed := ParseLog(x, log, block, blockHash, confirmations);
      parsed.Found? && Exactly(x)(parsed.transfer)
  }

  lemma PaymentIsParsed(x: Expected, log: Log, block: nat, blockHash: string, confirmations: nat)
    ensures ParsesAsPayment(x, block, blockHash, confirmations)(log) <==> Pays(x, log, block, blockHash, confirmations)
  {
    hide ParseLog, WellFormedTransfer, Records;
    var parsed := ParseLog(x, log, block, blockHash, confirmations);
    if parsed.Found? && Exactly(x)(parsed.transfer) {
      var t := parsed.transfer;
      ParsingIsExact(x, log, block, blockHash, confirmations, t);
      assert t == PaymentOf(x, t.logIndex, blockHash, confirmations);
    }
    if Pays(x, log, block, blockHash, confirmations) {
      var index: nat :| Belongs(x, log, PaymentOf(x, index, blockHash, confirmations), block, blockHash, confirmations);
      ParsingIsExact(x, log, block, blockHash, confirmations, PaymentOf(x, index, blockHash, confirmations));
    }
  }

  lemma {:induction false} PaymentsAreCounted(
    x: Expected, logs: seq<Log>, block: nat, blockHash: string, confirmations: nat)
    requires ParseLogs(x, logs, block, blockHash, confirmations).Some?
    ensures |Filter(Exactly(x), ParseLogs(x, logs, block, blockHash, confirmations).value)|
      == |Filter(ParsesAsPayment(x, block, blockHash, confirmations), logs)|
  {
    hide ParseLog;
    if logs != [] {
      PaymentsAreCounted(x, logs[..|logs| - 1], block, blockHash, confirmations);
      var before := ParseLogs(x, logs[..|logs| - 1], block, blockHash, confirmations).value;
      var all := ParseLogs(x, logs, block, blockHash, confirmations).value;
      assert all != before ==> all[..|all| - 1] == before;
    }
  }

  lemma {:induction false} NoneIsKept<T>(keep: T -> bool, s: seq<T>)
    ensures Filter(keep, s) == [] <==> forall i :: 0 <= i < |s| ==> !keep(s[i])
  {
    if s != [] {
      var (before, last) := (s[..|s| - 1], s[|s| - 1]);
      NoneIsKept(keep, before);
      assert (forall i :: 0 <= i < |s| ==> !keep(s[i])) <==>
        (forall i :: 0 <= i < |before| ==> !keep(before[i])) && !keep(last);
    }
  }

  /** The element at k is kept and no other. */
  predicate OnlyKept<T>(keep: T -> bool, s: seq<T>, k: nat) {
    k < |s| && keep(s[k]) && forall i :: 0 <= i < |s| && i != k ==> !keep(s[i])
  }

  lemma {:induction false} OneIsKept<T>(keep: T -> bool, s: seq<T>)
    ensures |Filter(keep, s)| == 1 <==> exists k: nat :: OnlyKept(keep, s, k)
  {
    if s != [] {
      var (before, last) := (s[..|s| - 1], s[|s| - 1]);
      if keep(last) {
        NoneIsKept(keep, before);
        hide Filter;
        assert (forall i :: 0 <= i < |before| ==> !keep(before[i])) <==> OnlyKept(keep, s, |before|);
        assert forall k: nat :: OnlyKept(keep, s, k) ==> k == |before|;
      } else {
        OneIsKept(keep, before);
        hide Filter;
        assert forall k: nat :: OnlyKept(keep, s, k) <==> OnlyKept(keep, before, k);
      }
    }
  }

  /** The chain's answers, read off field by field: on chain 84532, the receipt of the expected transaction, status 1,
      in this block with this hash, no later than the latest block. */
  predicate Settled(x: Expected, rpc: Rpc, block: nat, latest: nat, blockHash: string) {
    && rpc.receipt.Receipt? && IsLoweredHex(x.transactionHash, 64) && IsLoweredHex(blockHash, 64) && block <= latest
    && Spells(rpc.chainId, Numeral(84532)) && Spells(rpc.receipt.status, "1")
    && Spells(rpc.receipt.transactionHash, x.transactionHash[2..])
    && Spells(rpc.receipt.blockNumber, Numeral(block)) && Spells(rpc.receipt.blockHash, blockHash[2..])
    && Spells(rpc.latestBlock, Numeral(latest)) && rpc.receipt.logs.Some?
  }

  lemma SettledIsMined(x: Expected, rpc: Rpc, block: nat, latest: nat, blockHash: string)
    ensures Settled(x, rpc, block, latest, blockHash) <==>
      && Mined(x, rpc) && LoweredHex(rpc.receipt.blockHash, 64) == Some(blockHash) && rpc.receipt.logs.Some?
      && Quantity(rpc.receipt.blockNumber) == Some(block) && Quantity(rpc.latestBlock) == Some(latest)
  {
    NumeralIsRead(1);
    assert Numeral(1) == "1";
    if rpc.receipt.Receipt? {
      QuantityIsExact(rpc.chainId, CHAIN_ID);
      QuantityIsExact(rpc.receipt.status, 1);
      QuantityIsExact(rpc.receipt.blockNumber, block);
      QuantityIsExact(rpc.latestBlock, latest);
      HashIsRead(rpc.receipt.transactionHash, x.transactionHash);
      HashIsRead(rpc.receipt.blockHash, blockHash);
    }
    hide Quantity, Numeral, LoweredHex, Spells, IsLoweredHex;
  }

  lemma HashIsRead(v: Option<string>, hash: string)
    ensures LoweredHex(v, 64) == Some(hash) <==> IsLoweredHex(hash, 64) && Spells(v, hash[2..])
  {
    if LoweredHex(v, 64) == Some(hash) { LoweredHexIsLowered(v.value, 64); }
    if IsLoweredHex(hash, 64) { LoweredHexIsExact(v, hash, 64); }
    hide Spells, IsLoweredHex, LoweredHex;
  }

  /** One log, at k, records the intended payment and no other does; no log of the token is broken. */
  ghost predicate OnePays(x: Expected, logs: seq<Log>, block: nat, blockHash: string, confirmations: nat, k: nat) {
    && k < |logs| && Pays(x, logs[k], block, blockHash, confirmations)
    && (forall i :: 0 <= i < |logs| && i != k ==> !Pays(x, logs[i], block, blockHash, confirmations))
    && (forall i :: 0 <= i < |logs| ==> !Broken(x, logs[i], block, blockHash, confirmations))
  }

  lemma OneTransferOnePays(x: Expected, logs: seq<Log>, block: nat, blockHash: string, confirmations: nat)
    ensures var parsed := ParseLogs(x, logs, block, blockHash, confirmations);
      parsed.Some? && |Filter(Exactly(x), parsed.value)| == 1 <==>
        exists k: nat :: OnePays(x, logs, block, blockHash, confirmations, k)
  {
    hide ParseLogs, Broken, Pays, Belongs, Filter, ParsesAsPayment;
    var keep := ParsesAsPayment(x, block, blockHash, confirmations);
    ParsedTransfersAreRecorded(x, logs, block, blockHash, confirmations, PaymentOf(x, 0, blockHash, confirmations));
    forall i | 0 <= i < |logs| ensures keep(logs[i]) <==> Pays(x, logs[i], block, blockHash, confirmations) {
      PaymentIsParsed(x, logs[i], block, blockHash, confirmations);
    }
    OneIsKept(keep, logs);
    if ParseLogs(x, logs, block, blockHash, confirmations).Some? {
      PaymentsAreCounted(x, logs, block, blockHash, confirmations);
      if |Filter(keep, logs)| == 1 {
        var k: nat :| OnlyKept(keep, logs, k);
        assert OnePays(x, logs, block, blockHash, confirmations, k);
      }
      if k: nat :| OnePays(x, logs, block, blockHash, confirmations, k) {
        assert OnlyKept(keep, logs, k);
      }
    }
  }

  /** The receipt is settled, deep enough, and its log at k and no other records the intended payment. */
  ghost predicate PaidAt(
    x: Expected, rpc: Rpc, minimum: int, block: nat, latest: nat, blockHash: string, k: nat)
  {
    && Settled(x, rpc, block, latest, blockHash) && minimum <= latest - block + 1
    && OnePays(x, rpc.receipt.logs.value, block, blockHash, latest - block + 1, k)
  }

  ghost predicate PaidOnce(x: Expected, rpc: Rpc, minimum: int) {
    exists block: nat, latest: nat, blockHash: string, k: nat :: PaidAt(x, rpc, minimum, block, latest, blockHash, k)
  }

  /** The verifier's evidence is what the node wrote: a unique and deep transfer is the intended payment recorded
      once. */
  lemma EvidenceIsWhatWasPaid(x: Expected, rpc: Rpc, minimum: int)
    ensures UniqueAndDeep(x, rpc, minimum) <==> PaidOnce(x, rpc, minimum)
  {
    hide ParseLogs, OnePays, Settled, Filter, Quantity, LoweredHex, Spells;
    if UniqueAndDeep(x, rpc, minimum) {
      var (block, latest) := (Quantity(rpc.receipt.blockNumber).value, Quantity(rpc.latestBlock).value);
      var hash := LoweredHex(rpc.receipt.blockHash, 64).value;
      SettledIsMined(x, rpc, block, latest, hash);
      OneTransferOnePays(x, rpc.receipt.logs.value, block, hash, latest - block + 1);
      var k: nat :| OnePays(x, rpc.receipt.logs.value, block, hash, latest - block + 1, k);
      assert PaidAt(x, rpc, minimum, block, latest, hash, k);
    }
    if PaidOnce(x, rpc, minimum) {
      var block: nat, latest: nat, hash: string, k: nat :| PaidAt(x, rpc, minimum, block, latest, hash, k);
      SettledIsMined(x, rpc, block, latest, hash);
      OneTransferOnePays(x, rpc.receipt.logs.value, block, hash, latest - block + 1);
    }
  }

  // ---- an ordinary payment ----

  /** What the verifier's constructor leaves. */
  predicate Constructed(x: Expected) {
    && IsLoweredHex(x.transactionHash, 64) && IsLoweredHex(x.token, 40) && IsLoweredHex(x.sender, 40)
    && IsLoweredHex(x.recipient, 40) && x.amount >= 1
  }

  /** A node's answers about the expected transaction in this block. */
  function AnswersOf(x: Expected, block: nat, latest: nat, blockHash: string, logs: seq<Log>): Rpc {
    Rpc(Some("0x" + Numeral(84532)),
      Receipt(Some(x.transactionHash), Some("0x1"), Some("0x" + Numeral(block)), Some(blockHash), Some(logs)),
      Some("0x" + Numeral(latest)))
  }

  lemma AnswersAreSettled(x: Expected, block: nat, latest: nat, blockHash: string, logs: seq<Log>)
    requires Constructed(x) && IsLoweredHex(blockHash, 64) && block <= latest
    ensures Settled(x, AnswersOf(x, block, latest, blockHash, logs), block, latest, blockHash)
  {
    hide Spells, Numeral, IsNumeralText, IsLoweredHex;
    NumeralIsRead(84532);
    NumeralIsRead(block);
    NumeralIsRead(latest);
    DigitsSpell(Numeral(84532));
    DigitsSpell(Numeral(block));
    DigitsSpell(Numeral(latest));
    StatusIsSpelt();
    LoweredTextSpells(x.transactionHash, 64);
    LoweredTextSpells(blockHash, 64);
  }

  lemma StatusIsSpelt()
    ensures Spells(Some("0x1"), "1")
  {
    assert Lower("1") == "1";
  }

  /** End to end: when the chain holds the intended payment, written as one log of a successful transaction, the
      verifier's evidence is exact if and only if the block is deep enough. */
  lemma OrdinaryPaymentIsEvidence(
    x: Expected, index: nat, block: nat, latest: nat, blockHash: string, minimum: int)
    requires Constructed(x) && IsLoweredHex(blockHash, 64) && x.amount < Pow16(64) && block <= latest
    ensures var payment := PaymentOf(x, index, blockHash, latest - block + 1);
      && WellFormedTransfer(payment)
      && (PaidOnce(x, AnswersOf(x, block, latest, blockHash, [LogOf(payment, block)]), minimum) <==>
            minimum <= latest - block + 1)
  {
    hide ParseLog, Numeral, Padded, Spells, Belongs, Records, Quantity, LoweredHex, Settled, Pow16, ParseLogs, Filter;
    var (depth, payment) := (latest - block + 1, PaymentOf(x, index, blockHash, latest - block + 1));
    var log := LogOf(payment, block);
    var rpc := AnswersOf(x, block, latest, blockHash, [log]);
    WrittenLogParses(x, payment, block);
    ParsingIsExact(x, log, block, blockHash, depth, payment);
    AnswersAreSettled(x, block, latest, blockHash, [log]);
    SettledIsMined(x, rpc, block, latest, blockHash);
    EvidenceIsWhatWasPaid(x, rpc, minimum);
    assert Pays(x, log, block, blockHash, depth);
    assert OnePays(x, [log], block, blockHash, depth, 0);
    if minimum <= depth { assert PaidAt(x, rpc, minimum, block, latest, blockHash, 0); }
  }

  /** For the reconciler the chain's answers are exact evidence if and only if exactly one of the receipt's
      transfers is the intended one and the receipt is deep enough, and a mismatch if and only if none is and a
      single candidate is left. */
  lemma ExactEvidenceIsUnique(x: Expected, e: EffectRecord, sender: string, minimum: int, rpc: Rpc)
    requires LooksFor(x, e, sender) && minimum >= 1
    ensures var o := Observed(x, rpc);
      && (o.Some? ==> WellFormedObservation(o.value))
      && (o.Some? && Reconciliation.Weigh(e, sender, minimum, o.value) == Reconciliation.Exact <==>
            UniqueAndDeep(x, rpc, minimum))
      && (o.Some? && Reconciliation.Weigh(e, sender, minimum, o.value) == Reconciliation.Mismatch <==>
            OneOther(x, rpc))
  {
    ObservedTransferIsMined(x, rpc);
    if Mined(x, rpc) && Transfers(x, rpc).Some? {
      var (logs, block) := (rpc.receipt.logs.value, Quantity(rpc.receipt.blockNumber).value);
      var hash := LoweredHex(rpc.receipt.blockHash, 64).value;
      hide ParseLogs, Quantity, LoweredHex, WellFormedTransfer, Filter;
      ExactLogsAreUnique(x, e, sender, minimum, logs, block, hash, Depth(x, rpc));
    }
  }

  /** Reconcile an attempt against the chain: never VERIFIED from a receipt with no or several exact transfers,
      from a failed or shallow one, or from another transaction, unless the attempt was found finished.  Alone, an
      unfinished attempt becomes VERIFIED if and only if it is recoverable and the intended payment was recorded once
      and deep enough, and its Mission is then left where its effects call for. */
  method ReconcileOnChain(
    sys: System, pid: Pid, id: AttemptId, x: Expected, expected: string, minimum: int, rpc: Rpc, at: int)
    returns (r: Result<Reconciliation.Reconciled>)
    requires sys.Valid() && (sys.cfg.Ordered? ==> id in sys.references.rows)
    modifies sys, sys.missions, sys.attempts, sys.ledger, sys.references
    ensures sys.Valid() && old(sys.log) <= sys.log && Reconciliation.OnlyReconciling(pid, old(sys.log), sys.log)
    ensures r.Success? && r.value.outcome == Reconciliation.OutcomeVerified ==>
      && Reconciliation.Finished(sys.Now(), id)
      && (|| ContinuedByOthers(pid, old(sys.log), sys.log)
          || (LooksFor(x, EffectBehind(sys.Now(), id), Lower(expected)) ==> PaidOnce(x, rpc, minimum)))
    ensures (sys.quiet && minimum >= 1 && IsAddress(expected) && Reconciliation.Locatable(old(sys.Now()), id)
        && !Reconciliation.Finished(old(sys.Now()), id)
        && LooksFor(x, EffectBehind(old(sys.Now()), id), Lower(expected))) ==>
      (r.Success? && r.value.outcome == Reconciliation.OutcomeVerified <==>
         Reconciliation.Recoverable(old(sys.Now()), id) && PaidOnce(x, rpc, minimum))
      && (r.Success? && r.value.outcome == Reconciliation.OutcomeVerified ==>
            && id.effect.mission in sys.missions.rows
            && Projection.StandsByEffects(sys.missions.rows[id.effect.mission].record))
  {
    hide Legal, Replay, StoresEvolve, Observed, UniqueAndDeep, PaidOnce, OneOther, Evidence.EconomicMatch;
    hide Projection.StandsByEffects;
    hide Reconciliation.Honest, Reconciliation.Recoverable;
    var report := Observe(x, rpc);
    ghost var s := sys.Now();
    r := Reconciliation.Reconcile(sys, pid, id, expected, minimum, report, at);
    ExactForAll(x, Lower(expected), minimum, rpc);
    EvidenceIsWhatWasPaid(x, rpc, minimum);
  }

  lemma ExactForAll(x: Expected, sender: string, minimum: int, rpc: Rpc)
    ensures minimum >= 1 ==> forall e :: LooksFor(x, e, sender) ==>
      && (Observed(x, rpc).Some? ==> WellFormedObservation(Observed(x, rpc).value))
      && (Observed(x, rpc).Some? && Reconciliation.Weigh(e, sender, minimum, Observed(x, rpc).value) == Reconciliation.Exact
          <==> UniqueAndDeep(x, rpc, minimum))
  {
    if minimum >= 1 {
      forall e | LooksFor(x, e, sender)
        ensures Observed(x, rpc).Some? ==> WellFormedObservation(Observed(x, rpc).value)
        ensures Observed(x, rpc).Some? && Reconciliation.Weigh(e, sender, minimum, Observed(x, rpc).value) == Reconciliation.Exact
          <==> UniqueAndDeep(x, rpc, minimum)
      {
        ExactEvidenceIsUnique(x, e, sender, minimum, rpc);
      }
    }
  }
}
