/** The worker's completion loop: finished jobs are buffered and reported in batches. */
module Worker {
  import opened Schema
  import opened Transactions

  function Concat(batches: seq<seq<Done>>): seq<Done> {
    if batches == [] then [] else Concat(batches[..|batches| - 1]) + batches[|batches| - 1]
  }

  lemma ConcatMore(batches: seq<seq<Done>>, b: seq<Done>)
    ensures Concat(batches + [b]) == Concat(batches) + b
  {
    assert (batches + [b])[..|batches|] == batches;
  }

  /** What one attempt to report a batch came to. */
  datatype Reply = Reported(done: set<JobId>) | Transient | Refused

  class Completer {
    const limit: nat
    const tries: nat
    var buf: seq<Done>
    var sent: seq<seq<Done>>
    var probed: seq<Done>

    /** Everything taken in so far is in one of the batches sent, in order, or still buffered. */
    ghost predicate Valid(received: seq<Done>)
      reads this
    {
      && limit > 0 && tries > 0
      && Concat(sent) + buf == received && |buf| < limit
      && forall i :: 0 <= i < |sent| ==> 0 < |sent[i]| <= limit
    }

    constructor (batch: nat, attempts: nat)
      requires batch > 0 && attempts > 0
      ensures Valid([]) && buf == [] && sent == [] && probed == []
    {
      limit, tries, buf, sent, probed := batch, attempts, [], [], [];
    }

    method ProbeMissing(answer: Reply)
      requires answer.Reported?
      modifies this`probed
      ensures probed == old(probed) + Unanswered(buf, answer)
    {
      for k := 0 to |buf|
        invariant probed == old(probed) + Unanswered(buf[..k], answer)
      {
        assert buf[..k + 1][..k] == buf[..k];
        if buf[k].job !in answer.done { probed := probed + [buf[k]]; }
      }
      assert buf[..|buf|] == buf;
    }

    /** flush: the batch is tried until it is answered or refused, the attempts are used up, or the
        deadline ends the waiting; completions the database did not accept are looked up one by
        one.  The buffer is emptied whatever happens.  There is one reply per attempt made. */
    method Flush(replies: seq<Reply>, ghost received: seq<Done>)
      requires limit > 0 && 0 < |replies| <= tries && Concat(sent) + buf == received && |buf| <= limit
      requires forall i :: 0 <= i < |sent| ==> 0 < |sent[i]| <= limit
      modifies this
      ensures Valid(received) && buf == []
      ensures sent == if old(buf) == [] then old(sent) else old(sent) + [old(buf)]
      ensures probed == old(probed) + Unanswered(old(buf), Answer(replies))
    {
      if |buf| == 0 { return; }
      var i, answer := 0, Transient;
      while i < |replies| && answer.Transient?
        invariant 0 <= i <= |replies|
        invariant forall k :: 0 <= k < i - 1 ==> replies[k].Transient?
        invariant i == 0 ==> answer == Transient
        invariant i > 0 ==> answer == replies[i - 1]
      {
        answer := replies[i];
        i := i + 1;
      }
      AnswerIs(replies, i, answer);
      ConcatMore(sent, buf);
      if answer.Reported? { ProbeMissing(answer); } else { NoneUnanswered(buf, answer); }
      sent := sent + [buf];
      buf := [];
    }

    /** A finished job arrives: a full buffer is flushed at once. */
    method Finish(d: Done, replies: seq<Reply>, ghost received: seq<Done>)
      requires Valid(received) && 0 < |replies| <= tries
      modifies this
      ensures Valid(received + [d])
      ensures buf == [] || buf == old(buf) + [d]
    {
      assert Concat(sent) + (buf + [d]) == received + [d];
      buf := buf + [d];
      if |buf| >= limit { Flush(replies, received + [d]); }
    }
  }

  /** The first answer that is not transient, or the last one. */
  function Answer(replies: seq<Reply>): Reply {
    if replies == [] then Transient
    else if !replies[0].Transient? || |replies| == 1 then replies[0]
    else Answer(replies[1..])
  }

  lemma {:induction false} AnswerIs(replies: seq<Reply>, i: nat, answer: Reply)
    requires 0 < i <= |replies| && answer == replies[i - 1] && (forall k :: 0 <= k < i - 1 ==> replies[k].Transient?)
    requires i < |replies| ==> !answer.Transient?
    ensures Answer(replies) == answer
  {
    if i > 1 {
      AnswerIs(replies[1..], i - 1, answer);
    }
  }

  /** The entries of an accepted batch that it did not complete. */
  function Unanswered(batch: seq<Done>, answer: Reply): seq<Done> {
    if batch == [] || !answer.Reported? then []
    else
      var d := batch[|batch| - 1];
      Unanswered(batch[..|batch| - 1], answer) + if d.job in answer.done then [] else [d]
  }

  /** Probed are exactly the entries of an answered batch whose job it did not complete. */
  lemma {:induction false} UnansweredIs(batch: seq<Done>, answer: Reply, d: Done)
    ensures d in Unanswered(batch, answer) <==> d in batch && answer.Reported? && d.job !in answer.done
  {
    if batch != [] && answer.Reported? {
      UnansweredIs(batch[..|batch| - 1], answer, d);
      assert d in batch <==> d in batch[..|batch| - 1] || d == batch[|batch| - 1];
    }
  }

  lemma NoneUnanswered(batch: seq<Done>, answer: Reply)
    requires !answer.Reported?
    ensures Unanswered(batch, answer) == []
  {
  }
}
