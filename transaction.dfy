/**
 * The transaction confirmation poller.  A submitted transaction is kept in
 * a shared reactive slot together with the "transaction modal open" and
 * "transaction loading" flags.  `confirm` arms a timer; when it fires the
 * ledger is asked how many blocks deep the transaction is.  At one
 * confirmation or more the slot is rewritten as confirmed and both flags are
 * cleared (or an error is raised when the slot is empty); with none, the
 * poll re-arms itself with a 2-second delay, with no retry bound.
 */
module TransactionService {
  import opened Common

  /** A pending or confirmed transaction as the shared slot holds it. */
  datatype Transaction = Transaction(hash: string, kind: string, params: seq<string>, confirmed: bool)

  /** What `getTransaction` returns for a known hash: the block it was mined in, if any. */
  datatype MinedInfo = MinedInfo(blockNumber: Option<int>)

  /**
   * One ledger round trip of `getConfirmations`: either a call threw, or
   * `getTransaction` answered (null for an unknown hash) and so did `getBlockNumber`.
   */
  datatype LedgerReply = QueryFailed | Answered(trx: Option<MinedInfo>, currentBlock: int)

  /** An armed `confirm(hash, chainId, timer, confirmed)` call; `delay` is in seconds. */
  datatype ConfirmCall = ConfirmCall(hash: string, chainId: int, delay: int, confirmed: bool)

  const DefaultDelay: int := 10
  const RetryDelay: int := 2
  const CouldNotConfirm: string := "Could not confirm the transaction status"

  /** The first arming of a poll, with the source's default arguments. */
  function FirstCall(hash: string, chainId: int): (c: ConfirmCall)
    ensures c.delay == DefaultDelay && !c.confirmed
    ensures c.hash == hash && c.chainId == chainId
  {
    ConfirmCall(hash, chainId, DefaultDelay, false)
  }

  predicate MinedAt(reply: LedgerReply, block: int)
  {
    reply.Answered? && reply.trx.Some? && reply.trx.value.blockNumber == Some(block)
  }

  /**
   * The confirmation count: blocks since the transaction was mined; 0 when
   * it is not mined yet, unknown, or the ledger call failed.
   */
  function GetConfirmations(reply: LedgerReply): (n: int)
    ensures n != 0 ==> exists b :: MinedAt(reply, b) && n == reply.currentBlock - b
    ensures forall b :: MinedAt(reply, b) ==> n == reply.currentBlock - b
    ensures n >= 1 <==> exists b :: MinedAt(reply, b) && reply.currentBlock > b
  {
    match reply
    case QueryFailed => 0
    case Answered(trx, current) =>
      if trx.None? then 0
      else match trx.value.blockNumber
        case None => 0
        case Some(b) => assert MinedAt(reply, b); current - b
  }

  /** For a mined transaction, a later block height never lowers the count. */
  lemma ConfirmationsGrowWithHeight(info: MinedInfo, h1: int, h2: int)
    requires h1 <= h2
    ensures GetConfirmations(Answered(Some(info), h1)) <= GetConfirmations(Answered(Some(info), h2))
  {
  }

  function ConfirmationCounts(replies: seq<LedgerReply>): (cs: seq<int>)
    ensures |cs| == |replies|
    ensures forall i :: 0 <= i < |replies| ==> cs[i] == GetConfirmations(replies[i])
  {
    seq(|replies|, i requires 0 <= i < |replies| => GetConfirmations(replies[i]))
  }

  /** Index of the first poll that sees one confirmation or more, `|cs|` when none does. */
  function FirstConfirmed(cs: seq<int>): (k: nat)
    ensures k <= |cs|
    ensures forall j :: 0 <= j < k ==> cs[j] < 1
    ensures k < |cs| ==> cs[k] >= 1
  {
    if cs == [] then 0
    else if cs[0] >= 1 then 0
    else 1 + FirstConfirmed(cs[1..])
  }

  /**
   * The calls a poll makes when its first `n` timer expiries see no
   * confirmation: the first call, then `n` re-armings with the retry delay
   * that carry the same hash, chain and confirmed flag.
   */
  function RetryChain(first: ConfirmCall, n: nat): (calls: seq<ConfirmCall>)
    ensures |calls| == n + 1 && calls[0] == first
    ensures forall j :: 1 <= j <= n ==> calls[j] == first.(delay := RetryDelay)
  {
    [first] + seq(n, _ => first.(delay := RetryDelay))
  }

  /** A transaction as the poller rewrites it once it is confirmed. */
  function MarkConfirmed(t: Transaction): (r: Transaction)
    ensures r.confirmed
    ensures r.hash == t.hash && r.kind == t.kind && r.params == t.params
  {
    Transaction(t.hash, t.kind, t.params, true)
  }

  /** The shared transaction slot, its two flags and the error notifications raised. */
  class TransactionSlot {
    var transaction: Option<Transaction>
    var modalOpen: bool
    var loading: bool
    var errors: seq<string>

    constructor(t: Option<Transaction>, modal: bool, busy: bool)
      ensures transaction == t && modalOpen == modal && loading == busy && errors == []
    {
      transaction := t;
      modalOpen := modal;
      loading := busy;
      errors := [];
    }

    /**
     * One timer expiry of `call`, with the ledger answering `reply`.
     * Returns the call it re-arms, if any.
     */
    method Fire(call: ConfirmCall, reply: LedgerReply) returns (next: Option<ConfirmCall>)
      modifies this
      ensures GetConfirmations(reply) < 1 ==>
        next == Some(ConfirmCall(call.hash, call.chainId, RetryDelay, call.confirmed))
        && transaction == old(transaction) && modalOpen == old(modalOpen)
        && loading == old(loading) && errors == old(errors)
      ensures GetConfirmations(reply) >= 1 && old(transaction).Some? ==>
        next == None && transaction == Some(MarkConfirmed(old(transaction).value))
        && !modalOpen && !loading && errors == old(errors)
      ensures GetConfirmations(reply) >= 1 && old(transaction).None? ==>
        next == None && transaction == None && modalOpen == old(modalOpen)
        && loading == old(loading) && errors == old(errors) + [CouldNotConfirm]
    {
      var confirmedTransaction := call.confirmed;
      var confirmations := GetConfirmations(reply);
      if confirmations >= 1 {
        if transaction.Some? {
          var t := transaction.value;
          transaction := Some(Transaction(t.hash, t.kind, t.params, true));
          modalOpen := false;
          loading := false;
          confirmedTransaction := true;
        } else {
          errors := errors + [CouldNotConfirm];
        }
        next := None;
      } else {
        next := Some(ConfirmCall(call.hash, call.chainId, RetryDelay, confirmedTransaction));
      }
    }

    /**
     * A whole poll starting with `first`, the ledger answering the timer
     * expiries with `replies` in turn.  Returns every call armed and whether
     * the poll is still waiting once the replies run out.
     */
    method Poll(first: ConfirmCall, replies: seq<LedgerReply>) returns (calls: seq<ConfirmCall>, pending: bool)
      modifies this
      ensures var k := FirstConfirmed(ConfirmationCounts(replies));
        pending <==> k == |replies|
      ensures var k := FirstConfirmed(ConfirmationCounts(replies));
        calls == RetryChain(first, k)
      ensures pending ==>
        transaction == old(transaction) && modalOpen == old(modalOpen)
        && loading == old(loading) && errors == old(errors)
      ensures !pending && old(transaction).Some? ==>
        transaction == Some(MarkConfirmed(old(transaction).value))
        && !modalOpen && !loading && errors == old(errors)
      ensures !pending && old(transaction).None? ==>
        transaction == None && modalOpen == old(modalOpen)
        && loading == old(loading) && errors == old(errors) + [CouldNotConfirm]
    {
      ghost var cs := ConfirmationCounts(replies);
      calls := [first];
      pending := true;
      var i := 0;
      while i < |replies| && pending
        invariant 0 <= i <= |replies|
        invariant pending ==> i <= FirstConfirmed(cs) && calls == RetryChain(first, i)
        invariant pending ==>
          transaction == old(transaction) && modalOpen == old(modalOpen)
          && loading == old(loading) && errors == old(errors)
        invariant !pending ==> i == FirstConfirmed(cs) + 1 && calls == RetryChain(first, i - 1)
        invariant !pending && old(transaction).Some? ==>
          transaction == Some(MarkConfirmed(old(transaction).value))
          && !modalOpen && !loading && errors == old(errors)
        invariant !pending && old(transaction).None? ==>
          transaction == None && modalOpen == old(modalOpen)
          && loading == old(loading) && errors == old(errors) + [CouldNotConfirm]
        decreases |replies| - i
      {
        var next := Fire(calls[|calls| - 1], replies[i]);
        if next.Some? {
          calls := calls + [next.value];
        } else {
          pending := false;
        }
        i := i + 1;
      }
    }
  }
}
