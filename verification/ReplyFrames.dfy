/** The frames behind the reply records. */
module ReplyFrames {
  import opened Common
  import opened Framing
  import Replies
  import opened ReplyInvariants
  import opened ReplyRuns

  /**
   In every run, the cancellation reply of every reserved record can be framed as a response
   to any ask, and its body fits one message of the record's connection.
   */
  lemma CancellationFits(
      start: Replies.State, run: seq<Replies.Step>, s: Replies.State, r: nat, correlation: U32, cancelled: Bytes)
    requires Reaches(start, run, s) && r < |s.records|
    ensures s.records[r].budget < |s.budgets| && s.records[r].connection < |s.connections|
    ensures |cancelled| == s.budgets[s.records[r].budget].cancelledLen ==>
      var m := MResponse(correlation, cancelled);
      InMemory(m) && TryEncode(m).Ok? &&
      |TryEncode(m).value| - LENGTH_PREFIX_LEN <= s.connections[s.records[r].connection].maxMessage
  {
    ReachedInv(start, run, s);
    assert RecordOk(s.records[r], s.budgets, s.connections);
    if |cancelled| == s.budgets[s.records[r].budget].cancelledLen { EncodeIff(MResponse(correlation, cancelled)); }
  }
}
