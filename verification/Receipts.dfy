/**
 * Reading a mined receipt: whether the vendor was credited
 * (packages/delegation/src/settlement-evidence.ts, apps/facilitator-erc7710/settlement.ts)
 * and what the transaction cost (apps/facilitator-erc7710/recovery.ts).
 */
module Receipts {
  import opened Wrappers
  import opened Journal

  const SETTLEMENT_REVERTED := "settlement_reverted"
  const VENDOR_NOT_CREDITED := "vendor_not_credited"

  datatype Topic = TransferTopic | AddressTopic(address: Address) | OtherTopic(word: nat)

  /** `word` is the data field when it is one 32-byte word, and None for any other data. */
  datatype Log = Log(address: Address, topics: seq<Topic>, word: Option<nat>)

  datatype FeeField = Absent | Readable(wei: nat) | Unreadable

  /** A receipt as a node hands it over; a fee the client could not read is None. */
  datatype Receipt = Receipt(hash: Hash, success: bool, logs: seq<Log>,
                             gasUsed: Option<nat>, price: Option<nat>, l1Fee: FeeField)

  predicate IsTransfer(l: Log, i: Intent) {
    && l.address == i.asset
    && l.topics == [TransferTopic, AddressTopic(i.payer), AddressTopic(i.payTo)]
    && l.word.Some?
  }

  function Transfers(logs: seq<Log>, i: Intent): seq<Log> {
    if logs == [] then []
    else (if IsTransfer(logs[0], i) then [logs[0]] else []) + Transfers(logs[1..], i)
  }

  /** None, or why the mined transaction did not settle the payment. */
  function ReceiptFailure(success: bool, logs: seq<Log>, i: Intent): Option<string> {
    var matches := Transfers(logs, i);
    if !success then Some(SETTLEMENT_REVERTED)
    else if |matches| != 1 || matches[0].word != Some(i.amount) then Some(VENDOR_NOT_CREDITED)
    else None
  }

  /** The log by which the payment's asset says that its payer moved `amount` to its vendor. */
  function TransferOf(i: Intent, amount: nat): Log {
    Log(i.asset, [TransferTopic, AddressTopic(i.payer), AddressTopic(i.payTo)], Some(amount))
  }

  /** The chain moved exactly the charged amount to the vendor, in exactly one transfer. */
  ghost predicate Credited(success: bool, logs: seq<Log>, i: Intent) {
    && success
    && exists k :: 0 <= k < |logs| && logs[k] == TransferOf(i, i.amount)
                   && forall j :: 0 <= j < |logs| && j != k ==> logs[j].word.None? || logs[j] != TransferOf(i, logs[j].word.value)
  }

  lemma {:induction false} NoTransfers(logs: seq<Log>, i: Intent)
    ensures Transfers(logs, i) == [] <==> forall k :: 0 <= k < |logs| ==> !IsTransfer(logs[k], i)
  {
    if logs != [] {
      NoTransfers(logs[1..], i);
      assert forall k :: 0 < k < |logs| ==> logs[k] == logs[1..][k - 1];
      assert forall k :: 0 <= k < |logs| - 1 ==> logs[1..][k] == logs[k + 1];
    }
  }

  lemma {:induction false} OneTransfer(logs: seq<Log>, i: Intent, amount: Option<nat>)
    ensures |Transfers(logs, i)| == 1 && Transfers(logs, i)[0].word == amount <==>
            exists k :: 0 <= k < |logs| && IsTransfer(logs[k], i) && logs[k].word == amount
                        && forall j :: 0 <= j < |logs| && j != k ==> !IsTransfer(logs[j], i)
  {
    if logs != [] {
      var rest := logs[1..];
      assert forall k :: 0 <= k < |rest| ==> rest[k] == logs[k + 1];
      if IsTransfer(logs[0], i) {
        NoTransfers(rest, i);
        if Transfers(rest, i) == [] && logs[0].word == amount {
          assert forall j :: 0 <= j < |logs| && j != 0 ==> logs[j] == rest[j - 1];
        }
      } else {
        OneTransfer(rest, i, amount);
        if k :| 0 <= k < |rest| && IsTransfer(rest[k], i) && rest[k].word == amount
                && forall j :: 0 <= j < |rest| && j != k ==> !IsTransfer(rest[j], i) {
          assert IsTransfer(logs[k + 1], i);
          assert forall j :: 0 < j < |logs| ==> logs[j] == rest[j - 1];
        }
        if k :| 0 <= k < |logs| && IsTransfer(logs[k], i) && logs[k].word == amount
                && forall j :: 0 <= j < |logs| && j != k ==> !IsTransfer(logs[j], i) {
          assert IsTransfer(rest[k - 1], i);
        }
      }
    }
  }

  /** A receipt is free of failures exactly when the vendor was credited. */
  lemma NoFailureIffCredited(success: bool, logs: seq<Log>, i: Intent)
    ensures ReceiptFailure(success, logs, i).None? <==> Credited(success, logs, i)
  {
    OneTransfer(logs, i, Some(i.amount));
    assert forall k :: 0 <= k < |logs| ==> (IsTransfer(logs[k], i) <==> logs[k].word.Some? && logs[k] == TransferOf(i, logs[k].word.value));
  }

  /** gasUsed * price + l1Fee, when the fees are all readable and gas was used. */
  function ActualCost(r: Receipt): Option<nat> {
    if r.gasUsed.None? || r.gasUsed.value == 0 || r.price.None? || r.l1Fee.Unreadable? then None
    else Some(r.gasUsed.value * r.price.value + if r.l1Fee.Absent? then 0 else r.l1Fee.wei)
  }

  /** The terminal entry for the transaction `hash`, if this receipt is its own and readable. */
  function EndingOf(r: Receipt, hash: Hash, i: Intent, now: nat): Option<Ending> {
    if r.hash != hash || ActualCost(r).None? then None
    else Some(Ending(now, r.gasUsed.value, ActualCost(r).value, ReceiptFailure(r.success, r.logs, i)))
  }
}
