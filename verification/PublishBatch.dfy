/** The market ingestor's put_records loop (services/market-ingestor kinesis.py): what becomes of the
    records of one batch under any pattern of partial failures. */
module PublishBatch {

  datatype KinesisRecord = KinesisRecord(data: seq<bv8>, partitionKey: string)

  /** Which records of one attempt come back with an error code; anything the service may answer. */
  type Answers = (nat, nat) -> bool

  /** The records that the attempt's answer marks, resp. does not mark, in their order. */
  function Marked(pending: seq<KinesisRecord>, attempt: nat, fails: Answers, mark: bool): (part: seq<KinesisRecord>)
    ensures |part| <= |pending|
  {
    if pending == [] then []
    else
      var last := |pending| - 1;
      var front := Marked(pending[..last], attempt, fails, mark);
      if fails(attempt, last) == mark then front + [pending[last]] else front
  }

  lemma {:induction false} MarkedSplits(pending: seq<KinesisRecord>, attempt: nat, fails: Answers)
    ensures multiset(pending) ==
            multiset(Marked(pending, attempt, fails, true)) + multiset(Marked(pending, attempt, fails, false))
  {
    if pending != [] {
      var last := |pending| - 1;
      MarkedSplits(pending[..last], attempt, fails);
      assert pending == pending[..last] + [pending[last]];
    }
  }

  ghost predicate Increasing(at: seq<nat>) {
    forall j, k :: 0 <= j < k < |at| ==> at[j] < at[k]
  }

  /** part is read off whole at increasing positions. */
  ghost predicate ReadsOff(part: seq<KinesisRecord>, whole: seq<KinesisRecord>, at: seq<nat>) {
    && |at| == |part| && Increasing(at)
    && forall k :: 0 <= k < |at| ==> at[k] < |whole| && whole[at[k]] == part[k]
  }

  ghost predicate Subsequence(part: seq<KinesisRecord>, whole: seq<KinesisRecord>) {
    exists at: seq<nat> :: ReadsOff(part, whole, at)
  }

  /** part is read off whole at exactly the positions that the attempt's answer marks so. */
  ghost predicate ReadsOffMarked(part: seq<KinesisRecord>, whole: seq<KinesisRecord>, attempt: nat, fails: Answers,
                                 mark: bool, at: seq<nat>)
  {
    && ReadsOff(part, whole, at)
    && forall k: nat :: k in at <==> k < |whole| && fails(attempt, k) == mark
  }

  /** What is resent is exactly what failed, and what counts as accepted exactly what did not, in order. */
  lemma {:induction false} MarkedExactly(pending: seq<KinesisRecord>, attempt: nat, fails: Answers, mark: bool)
    ensures exists at: seq<nat> ::
              ReadsOffMarked(Marked(pending, attempt, fails, mark), pending, attempt, fails, mark, at)
  {
    if pending == [] {
      assert Marked(pending, attempt, fails, mark) == [];
      assert ReadsOffMarked([], pending, attempt, fails, mark, []);
    } else {
      var last := |pending| - 1;
      MarkedExactly(pending[..last], attempt, fails, mark);
      var front := Marked(pending[..last], attempt, fails, mark);
      var at: seq<nat> :| ReadsOffMarked(front, pending[..last], attempt, fails, mark, at);
      if fails(attempt, last) == mark {
        OneMoreMarked(front, pending, attempt, fails, mark, at);
        assert Marked(pending, attempt, fails, mark) == front + [pending[last]];
      } else {
        assert Marked(pending, attempt, fails, mark) == front;
        assert ReadsOffMarked(front, pending, attempt, fails, mark, at);
      }
    }
  }

  lemma OneMoreMarked(front: seq<KinesisRecord>, pending: seq<KinesisRecord>, attempt: nat, fails: Answers, mark: bool,
                      at: seq<nat>)
    requires pending != [] && fails(attempt, |pending| - 1) == mark
    requires ReadsOffMarked(front, pending[..|pending| - 1], attempt, fails, mark, at)
    ensures ReadsOffMarked(front + [pending[|pending| - 1]], pending, attempt, fails, mark, at + [|pending| - 1])
  {
    var last := |pending| - 1;
    forall k | 0 <= k < |at| ensures at[k] < last {
      assert at[k] in at;
    }
    forall k: nat ensures k in at + [last] <==> k < |pending| && fails(attempt, k) == mark {
      assert k in at + [last] <==> k in at || k == last;
    }
  }

  lemma MarkedIsSubsequence(pending: seq<KinesisRecord>, attempt: nat, fails: Answers, mark: bool)
    ensures Subsequence(Marked(pending, attempt, fails, mark), pending)
  {
    MarkedExactly(pending, attempt, fails, mark);
    var at: seq<nat> :| ReadsOffMarked(Marked(pending, attempt, fails, mark), pending, attempt, fails, mark, at);
  }

  /** Each send after the first is exactly what the one before it failed to deliver. */
  ghost predicate ResendsFailures(sends: seq<seq<KinesisRecord>>, fails: Answers) {
    forall k :: 0 < k < |sends| ==> sends[k] == Marked(sends[k - 1], k - 1, fails, true)
  }

  /** The records accepted by the first n sends. */
  function AcceptedBy(sends: seq<seq<KinesisRecord>>, n: nat, fails: Answers): seq<KinesisRecord>
    requires n <= |sends|
  {
    if n == 0 then [] else AcceptedBy(sends, n - 1, fails) + Marked(sends[n - 1], n - 1, fails, false)
  }

  lemma {:induction false} AcceptedByPrefix(sends: seq<seq<KinesisRecord>>, more: seq<KinesisRecord>, n: nat,
                                            fails: Answers)
    requires n <= |sends|
    ensures AcceptedBy(sends + [more], n, fails) == AcceptedBy(sends, n, fails)
  {
    if n > 0 {
      AcceptedByPrefix(sends, more, n - 1, fails);
    }
  }

  function Attempts(maxRetries: int): nat {
    (if maxRetries > 0 then maxRetries else 0) + 1
  }

  /** What holds between two sends. */
  ghost predicate InFlight(records: seq<KinesisRecord>, sends: seq<seq<KinesisRecord>>, accepted: seq<KinesisRecord>,
                           pending: seq<KinesisRecord>, fails: Answers)
  {
    && (sends == [] ==> pending == records)
    && (sends != [] ==> sends[0] == records && pending == Marked(sends[|sends| - 1], |sends| - 1, fails, true))
    && (forall k :: 0 <= k < |sends| ==> sends[k] != [])
    && ResendsFailures(sends, fails)
    && accepted == AcceptedBy(sends, |sends|, fails)
    && multiset(records) == multiset(accepted) + multiset(pending)
  }

  lemma ResendsOneMore(sends: seq<seq<KinesisRecord>>, pending: seq<KinesisRecord>, fails: Answers)
    requires ResendsFailures(sends, fails)
    requires sends != [] ==> pending == Marked(sends[|sends| - 1], |sends| - 1, fails, true)
    ensures ResendsFailures(sends + [pending], fails)
  {
    forall k | 0 < k < |sends + [pending]|
      ensures (sends + [pending])[k] == Marked((sends + [pending])[k - 1], k - 1, fails, true)
    {
      assert (sends + [pending])[k - 1] == sends[k - 1];
    }
  }

  lemma AfterSend(records: seq<KinesisRecord>, sends: seq<seq<KinesisRecord>>, accepted: seq<KinesisRecord>,
                  pending: seq<KinesisRecord>, fails: Answers)
    requires InFlight(records, sends, accepted, pending, fails) && pending != []
    ensures InFlight(records, sends + [pending], accepted + Marked(pending, |sends|, fails, false),
                     Marked(pending, |sends|, fails, true), fails)
  {
    MarkedSplits(pending, |sends|, fails);
    AcceptedByPrefix(sends, pending, |sends|, fails);
    ResendsOneMore(sends, pending, fails);
  }

  /** Sends the batch, then resends failures until none are left or the retries are used up. Returns
      what was sent, what the service accepted and what was dropped. */
  method Publish(records: seq<KinesisRecord>, maxRetries: int, fails: Answers)
    returns (sends: seq<seq<KinesisRecord>>, accepted: seq<KinesisRecord>, dropped: seq<KinesisRecord>)
    ensures |sends| <= 1 || |sends| <= maxRetries + 1
    ensures if records == [] then sends == [] else |sends| > 0 && sends[0] == records
    ensures ResendsFailures(sends, fails) && forall k :: 0 <= k < |sends| ==> sends[k] != []
    ensures accepted == AcceptedBy(sends, |sends|, fails)
    ensures multiset(records) == multiset(accepted) + multiset(dropped)
    ensures sends != [] ==> dropped == Marked(sends[|sends| - 1], |sends| - 1, fails, true)
    ensures dropped != [] ==> |sends| == (if maxRetries > 0 then maxRetries else 0) + 1
  {
    var pending := records;
    var attempt := 0;
    sends, accepted, dropped := [], [], [];
    while pending != []
      invariant attempt == |sends| < Attempts(maxRetries)
      invariant InFlight(records, sends, accepted, pending, fails)
      invariant sends != [] ==> pending != []
      decreases Attempts(maxRetries) - attempt
    {
      AfterSend(records, sends, accepted, pending, fails);
      sends := sends + [pending];
      var failed := Marked(pending, attempt, fails, true);
      accepted := accepted + Marked(pending, attempt, fails, false);
      if failed == [] {
        return;
      }
      if attempt >= maxRetries {
        dropped := failed;
        return;
      }
      pending := failed;
      attempt := attempt + 1;
    }
  }

  lemma SubsequenceCompose(a: seq<KinesisRecord>, b: seq<KinesisRecord>, c: seq<KinesisRecord>)
    requires Subsequence(a, b) && Subsequence(b, c)
    ensures Subsequence(a, c)
  {
    var inB: seq<nat> :| ReadsOff(a, b, inB);
    var inC: seq<nat> :| ReadsOff(b, c, inC);
    var at := seq(|a|, k requires 0 <= k < |a| => inC[inB[k]]);
    forall j, k | 0 <= j < k < |at| ensures at[j] < at[k] {
      assert inB[j] < inB[k];
    }
    assert ReadsOff(a, c, at);
  }

  /** Every resend is an order-preserving part of every earlier send, the batch included. */
  lemma {:induction false} ResendsAreSubsequences(sends: seq<seq<KinesisRecord>>, fails: Answers, j: nat, k: nat)
    requires ResendsFailures(sends, fails) && j < k < |sends|
    ensures Subsequence(sends[k], sends[j])
  {
    MarkedIsSubsequence(sends[k - 1], k - 1, fails, true);
    if j < k - 1 {
      ResendsAreSubsequences(sends, fails, j, k - 1);
      SubsequenceCompose(sends[k], sends[k - 1], sends[j]);
    }
  }
}
