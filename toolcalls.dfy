// Handling of the `toolCall` part of a server message: which function
// calls are scoring calls, the acknowledgements they cause, and which
// score ends up stored.
module ToolCalls {
  import opened Types

  /** The one tool registered with the remote session. */
  const ScoreToolName := "submitWorkoutScore"

  /** The `result` every acknowledgement carries. */
  const AckResult := "OK"

  predicate IsScoreCall(fc: FunctionCall)
  {
    fc.name == ScoreToolName
  }

  /** The function calls of a message; a message without `toolCall` has none. */
  function CallsOf(msg: ServerMessage): seq<FunctionCall>
  {
    if msg.toolCall.Some? then msg.toolCall.value else []
  }

  function ArgsOf(fc: FunctionCall): ReviewData
  {
    ReviewData(fc.score, fc.feedback)
  }

  /** The scoring calls among `calls`, in their original order. */
  function ScoreCalls(calls: seq<FunctionCall>): (r: seq<FunctionCall>)
    ensures forall i :: 0 <= i < |r| ==> IsScoreCall(r[i])
    ensures |r| <= |calls|
  {
    if calls == [] then []
    else
      var last := calls[|calls| - 1];
      ScoreCalls(calls[..|calls| - 1]) + (if IsScoreCall(last) then [last] else [])
  }

  /** The acknowledgements sent for `calls`, one `sendToolResponse` per scoring call. */
  function Acks(calls: seq<FunctionCall>): (r: seq<Outbound>)
    ensures |r| <= |calls|
    ensures forall i :: 0 <= i < |r| ==> r[i].ToolResponse? && r[i].name == ScoreToolName && r[i].result == AckResult
  {
    if calls == [] then []
    else
      var last := calls[|calls| - 1];
      Acks(calls[..|calls| - 1])
        + (if IsScoreCall(last) then [ToolResponse(last.id, last.name, AckResult)] else [])
  }

  /** The review data after handling `calls`, starting from `prior`. */
  function LastScore(calls: seq<FunctionCall>, prior: Option<ReviewData>): (r: Option<ReviewData>)
    ensures r == prior || exists i :: 0 <= i < |calls| && IsScoreCall(calls[i]) && r == Some(ArgsOf(calls[i]))
  {
    if calls == [] then prior
    else
      var last := calls[|calls| - 1];
      if IsScoreCall(last) then Some(ArgsOf(last)) else LastScore(calls[..|calls| - 1], prior)
  }

  /**
   * The loop over a message's function calls: each scoring call replaces
   * the review data and, while a session is open, is acknowledged.
   */
  method HandleCalls(calls: seq<FunctionCall>, prior: Option<ReviewData>, connected: bool)
    returns (review: Option<ReviewData>, acks: seq<Outbound>)
    ensures review == LastScore(calls, prior)
    ensures acks == if connected then Acks(calls) else []
  {
    review, acks := prior, [];
    var i := 0;
    while i < |calls|
      invariant 0 <= i <= |calls|
      invariant review == LastScore(calls[..i], prior)
      invariant acks == if connected then Acks(calls[..i]) else []
    {
      var fc := calls[i];
      if fc.name == ScoreToolName {
        review := Some(ReviewData(fc.score, fc.feedback));
        if connected {
          acks := acks + [ToolResponse(fc.id, fc.name, AckResult)];
        }
      }
      assert calls[..i + 1][..i] == calls[..i];
      i := i + 1;
    }
    assert calls[..i] == calls;
  }

  /** Every scoring call is kept as often as it occurs; no other call is kept. */
  lemma {:induction false} ScoreCallsExact(calls: seq<FunctionCall>, fc: FunctionCall)
    ensures multiset(ScoreCalls(calls))[fc] == if IsScoreCall(fc) then multiset(calls)[fc] else 0
  {
    if calls != [] {
      var init := calls[..|calls| - 1];
      ScoreCallsExact(init, fc);
      assert calls == init + [calls[|calls| - 1]];
    }
  }

  /**
   * Exactly one acknowledgement per scoring call, in call order, echoing
   * the call's id and name with result "OK".
   */
  lemma {:induction false} AcksEchoScoreCalls(calls: seq<FunctionCall>)
    ensures |Acks(calls)| == |ScoreCalls(calls)|
    ensures forall k :: 0 <= k < |Acks(calls)| ==>
      Acks(calls)[k] == ToolResponse(ScoreCalls(calls)[k].id, ScoreCalls(calls)[k].name, AckResult)
  {
    if calls != [] {
      AcksEchoScoreCalls(calls[..|calls| - 1]);
    }
  }

  /** A message whose calls are all to other tools sends nothing. */
  lemma {:induction false} NoScoreCallNoAck(calls: seq<FunctionCall>)
    requires forall i :: 0 <= i < |calls| ==> !IsScoreCall(calls[i])
    ensures Acks(calls) == [] && ScoreCalls(calls) == []
  {
    if calls != [] {
      NoScoreCallNoAck(calls[..|calls| - 1]);
    }
  }

  /** The last scoring call of the message decides the stored review data. */
  lemma {:induction false} LastScoreWins(calls: seq<FunctionCall>, prior: Option<ReviewData>, j: nat)
    requires j < |calls| && IsScoreCall(calls[j])
    requires forall k :: j < k < |calls| ==> !IsScoreCall(calls[k])
    ensures LastScore(calls, prior) == Some(ArgsOf(calls[j]))
  {
    if j < |calls| - 1 {
      LastScoreWins(calls[..|calls| - 1], prior, j);
    }
  }

  /** Calls to other tools leave the review data as it was. */
  lemma {:induction false} NoScoreCallKeepsReview(calls: seq<FunctionCall>, prior: Option<ReviewData>)
    requires forall i :: 0 <= i < |calls| ==> !IsScoreCall(calls[i])
    ensures LastScore(calls, prior) == prior
  {
    if calls != [] {
      NoScoreCallKeepsReview(calls[..|calls| - 1], prior);
    }
  }

  /** The end-of-session scoring call stores its score and is acknowledged once. */
  lemma FinalScoreScenario(id: string)
    ensures var calls := [FunctionCall(id, ScoreToolName, 95.0, "Excellent depth and control")];
      LastScore(calls, None) == Some(ReviewData(95.0, "Excellent depth and control"))
      && Acks(calls) == [ToolResponse(id, "submitWorkoutScore", "OK")]
  {
    var calls := [FunctionCall(id, ScoreToolName, 95.0, "Excellent depth and control")];
    assert calls[..0] == [];
  }
}
