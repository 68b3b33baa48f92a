/**
 * The push handle of a subscription as a value, and each operation of the
 * push path as a function from the old handle state to the new one.
 *
 * The class methods in module TqPush update a handle in place and are proved
 * to leave it in exactly the state these functions compute; the lemmas here
 * say what those states mean for a consumer: what admission into the input
 * queue costs in references, who gets asked to execute, who gets a response
 * and when a request context is consumed.
 */
module PushModel {
  import opened Wrappers
  import opened CTypes

  // ---------------------------------------------------------------------
  // Status bytes. The values are those of the stream task header; the model
  // relies only on their being distinct and non-zero.
  // ---------------------------------------------------------------------

  const InputNormal: int8 := 1
  const InputBlocked: int8 := 2

  const ExecIdle: int8 := 1
  const ExecExecuting: int8 := 2
  const ExecClosing: int8 := 3

  /**
   * The reply context of an RPC request (destination and correlation data).
   * The all-zero context the code leaves behind after answering is `None` in
   * a handle's state; a prepared request is taken to carry a real context,
   * never `Some(RpcInfo(0, 0, 0))`.
   */
  datatype RpcInfo = RpcInfo(handle: int64, ahandle: int64, refId: int64)

  /** Message kinds reaching the push path; only a submit is acted upon. */
  datatype MsgType = VndSubmit | OtherMsg(code: int32)

  /** The kind written in a response header; the push path only writes POLL_RSP. */
  datatype MqMsgType = PollRsp

  /** One result block produced by the execution engine, as opaque bytes. */
  datatype ResultBlock = ResultBlock(data: seq<bv8>)

  datatype RspHead = RspHead(mqMsgType: MqMsgType, epoch: int32, consumerId: int64)

  datatype DataBlkRsp = DataBlkRsp(reqOffset: int64, rspOffset: int64, blocks: seq<ResultBlock>)

  /** What is handed to the RPC layer: the stored reply context, header and body. */
  datatype Response = Response(info: Option<RpcInfo>, head: RspHead, body: DataBlkRsp)

  /**
   * A shared, reference-counted wrapper around one submitted write batch.
   * Cloning a reference bumps the count and shares the object; nothing is
   * copied. A count of zero means the batch has been released.
   */
  class SubmitPayload {
    const req: nat
    var refCount: nat

    constructor (req: nat)
      ensures this.req == req && refCount == 1
    {
      this.req := req;
      refCount := 1;
    }

    /** streamDataSubmitRefDec: give up one reference. */
    method RefDec()
      requires refCount > 0
      modifies this
      ensures refCount == old(refCount) - 1
    {
      refCount := refCount - 1;
    }
  }

  /**
   * Everything a push handle holds. `rpcInfo == None` is the all-zero reply
   * context; `timer` is the timeout the expiry timer was last armed with;
   * `queueOpen`/`qallOpen` say whether the input queue and its drain buffer
   * are allocated; `latched` is the handle's write latch.
   */
  datatype HandleState = HandleState(
    inputStatus: int8,
    execStatus: int8,
    tmrStopped: bool,
    reqId: int64,
    processedVer: int64,
    reqOffset: int64,
    epoch: int32,
    consumerId: int64,
    rpcInfo: Option<RpcInfo>,
    timer: Option<int32>,
    inputQ: seq<SubmitPayload>,
    queueOpen: bool,
    qallOpen: bool,
    latched: bool)

  /** The handle after `memset(..., 0, ...)`. */
  const Zeroed := HandleState(0, 0, false, 0, 0, 0, 0, 0, None, None, [], false, false, false)

  datatype StepResult = StepResult(rc: int32, state: HandleState)

  // ---------------------------------------------------------------------
  // Single-handle operations
  // ---------------------------------------------------------------------

  /**
   * tqOpenPushHandle: zero the handle, then allocate the input queue and the
   * drain buffer. Allocation is all-or-nothing: if either fails, the one that
   * succeeded is released again.
   */
  function Opened(queueOk: bool, qallOk: bool): (r: StepResult)
    ensures r.rc == 0 <==> queueOk && qallOk
    ensures r.rc == 0 || r.rc == -1
    ensures r.state.queueOpen == (r.rc == 0) && r.state.qallOpen == (r.rc == 0)
    ensures r.state == Zeroed.(queueOpen := r.state.queueOpen, qallOpen := r.state.qallOpen)
  {
    if queueOk && qallOk then StepResult(0, Zeroed.(queueOpen := true, qallOpen := true))
    else StepResult(-1, Zeroed)
  }

  /**
   * tqPreparePush: open a request. The reply context, request id and
   * processed version are replaced by the arguments, admission is reopened,
   * the expiry flag is cleared and the timer re-armed with the timeout cut to
   * 32 bits. Nothing else changes.
   */
  function Prepared(s: HandleState, reqId: int64, info: RpcInfo, processedVer: int64, timeout: int64): HandleState
  {
    s.(rpcInfo := Some(info), reqId := reqId, processedVer := processedVer,
       inputStatus := InputNormal, tmrStopped := false, timer := Some(ToInt32(timeout)))
  }

  /** tqTmrRspFunc: the expiry timer fired. Only the stopped flag is set. */
  function Expired(s: HandleState): HandleState
  {
    s.(tmrStopped := true)
  }

  /** A handle admits a payload when its input status is NORMAL and the reference clone succeeds. */
  predicate Accepts(s: HandleState, cloneOk: bool)
  {
    s.inputStatus == InputNormal && cloneOk
  }

  /** The execution statuses on which a fresh payload triggers an execution request. */
  predicate WantsExec(s: HandleState)
  {
    s.execStatus == ExecIdle || s.execStatus == ExecClosing
  }

  /**
   * tqEnqueue: an admitted payload reference goes to the tail of the input
   * queue; a refused one leaves the handle as it was.
   */
  function Enqueued(s: HandleState, p: SubmitPayload, cloneOk: bool): StepResult
  {
    if s.inputStatus == InputNormal then
      if cloneOk then StepResult(0, s.(inputQ := s.inputQ + [p])) else StepResult(-1, s)
    else StepResult(-1, s)
  }

  // ---------------------------------------------------------------------
  // Fan-out of one payload over all handles (tqEnqueueAll)
  // ---------------------------------------------------------------------

  /** `s` is strictly increasing. */
  predicate Increasing(s: seq<nat>)
  {
    forall a, b :: 0 <= a < b < |s| ==> s[a] < s[b]
  }

  lemma AppendIncreasing(prev: seq<nat>, n: nat)
    requires Increasing(prev) && forall x :: x in prev ==> x < n
    ensures Increasing(prev + [n])
  {
    assert forall k :: 0 <= k < |prev| ==> prev[k] in prev;
  }

  /** The positions, in iteration order, of the handles that admit the payload. */
  function AcceptedIndices(ss: seq<HandleState>, oks: seq<bool>): seq<nat>
    requires |oks| == |ss|
    decreases |ss|
  {
    if |ss| == 0 then []
    else
      var n := |ss| - 1;
      AcceptedIndices(ss[..n], oks[..n]) + (if Accepts(ss[n], oks[n]) then [n] else [])
  }

  /**
   * The positions, in iteration order, of the handles for which the fan-out
   * requests execution: those that admitted the payload and were IDLE or
   * CLOSING.
   */
  function ExecRequests(ss: seq<HandleState>, oks: seq<bool>): seq<nat>
    requires |oks| == |ss|
    decreases |ss|
  {
    if |ss| == 0 then []
    else
      var n := |ss| - 1;
      ExecRequests(ss[..n], oks[..n]) + (if Accepts(ss[n], oks[n]) && WantsExec(ss[n]) then [n] else [])
  }

  /**
   * Exactly the handles that admit the payload are counted, each once, in
   * iteration order: refusing handles are skipped, not fatal.
   */
  lemma {:induction false} AcceptedIndicesExact(ss: seq<HandleState>, oks: seq<bool>)
    requires |oks| == |ss|
    ensures forall i: nat :: i in AcceptedIndices(ss, oks) <==> i < |ss| && Accepts(ss[i], oks[i])
    ensures Increasing(AcceptedIndices(ss, oks))
    decreases |ss|
  {
    if |ss| > 0 {
      var n := |ss| - 1;
      AcceptedIndicesExact(ss[..n], oks[..n]);
      AppendIncreasing(AcceptedIndices(ss[..n], oks[..n]), n);
    }
  }

  /**
   * Execution is requested exactly for the handles that admitted the payload
   * while IDLE or CLOSING, each at most once, in iteration order; so never
   * for a refusing handle nor for one already EXECUTING.
   */
  lemma {:induction false} ExecRequestsExact(ss: seq<HandleState>, oks: seq<bool>)
    requires |oks| == |ss|
    ensures forall i: nat :: i in ExecRequests(ss, oks) <==> i < |ss| && Accepts(ss[i], oks[i]) && WantsExec(ss[i])
    ensures Increasing(ExecRequests(ss, oks))
    decreases |ss|
  {
    if |ss| > 0 {
      var n := |ss| - 1;
      ExecRequestsExact(ss[..n], oks[..n]);
      AppendIncreasing(ExecRequests(ss[..n], oks[..n]), n);
    }
  }

  /**
   * Every execution request goes to a handle that admitted the payload, so
   * there are no more requests than admissions, and no more admissions than
   * handles.
   */
  lemma {:induction false} ExecRequestsWithinAccepted(ss: seq<HandleState>, oks: seq<bool>)
    requires |oks| == |ss|
    ensures forall i :: i in ExecRequests(ss, oks) ==> i in AcceptedIndices(ss, oks)
    ensures |ExecRequests(ss, oks)| <= |AcceptedIndices(ss, oks)| <= |ss|
    decreases |ss|
  {
    ExecRequestsExact(ss, oks);
    AcceptedIndicesExact(ss, oks);
    if |ss| > 0 {
      ExecRequestsWithinAccepted(ss[..|ss| - 1], oks[..|ss| - 1]);
    }
  }

  /** Extending the iteration by one handle extends the accepted positions by at most that one. */
  lemma AcceptedIndicesStep(ss: seq<HandleState>, oks: seq<bool>, i: nat)
    requires |oks| == |ss| && i < |ss|
    ensures AcceptedIndices(ss[..i + 1], oks[..i + 1])
         == AcceptedIndices(ss[..i], oks[..i]) + (if Accepts(ss[i], oks[i]) then [i] else [])
  {
    assert ss[..i + 1][..i] == ss[..i] && oks[..i + 1][..i] == oks[..i];
  }

  /** Extending the iteration by one handle extends the execution requests by at most that one. */
  lemma ExecRequestsStep(ss: seq<HandleState>, oks: seq<bool>, i: nat)
    requires |oks| == |ss| && i < |ss|
    ensures ExecRequests(ss[..i + 1], oks[..i + 1])
         == ExecRequests(ss[..i], oks[..i]) + (if Accepts(ss[i], oks[i]) && WantsExec(ss[i]) then [i] else [])
  {
    assert ss[..i + 1][..i] == ss[..i] && oks[..i + 1][..i] == oks[..i];
  }

  /** Every handle after the fan-out: each one is offered the payload, refusals included. */
  function Broadcast(ss: seq<HandleState>, p: SubmitPayload, oks: seq<bool>): (r: seq<HandleState>)
    requires |oks| == |ss|
    ensures |r| == |ss|
    decreases |ss|
  {
    if |ss| == 0 then []
    else
      var n := |ss| - 1;
      Broadcast(ss[..n], p, oks[..n]) + [Enqueued(ss[n], p, oks[n]).state]
  }

  /** Each handle after the fan-out is that handle offered the payload. */
  lemma {:induction false} BroadcastAt(ss: seq<HandleState>, p: SubmitPayload, oks: seq<bool>, i: nat)
    requires |oks| == |ss| && i < |ss|
    ensures Broadcast(ss, p, oks)[i] == Enqueued(ss[i], p, oks[i]).state
    decreases |ss|
  {
    var n := |ss| - 1;
    if i < n {
      BroadcastAt(ss[..n], p, oks[..n], i);
    }
  }

  /** Offering to one more handle extends the broadcast by that handle's outcome. */
  lemma BroadcastStep(ss: seq<HandleState>, p: SubmitPayload, oks: seq<bool>, i: nat)
    requires |oks| == |ss| && i < |ss|
    ensures Broadcast(ss[..i + 1], p, oks[..i + 1]) == Broadcast(ss[..i], p, oks[..i]) + [Enqueued(ss[i], p, oks[i]).state]
  {
    assert ss[..i + 1][..i] == ss[..i] && oks[..i + 1][..i] == oks[..i];
  }

  /** How many queue entries, over all handles, refer to `p`. */
  function Occurrences(ss: seq<HandleState>, p: SubmitPayload): nat
    decreases |ss|
  {
    if |ss| == 0 then 0
    else Occurrences(ss[..|ss| - 1], p) + multiset(ss[|ss| - 1].inputQ)[p]
  }

  lemma {:induction false} OccurrencesAbsent(ss: seq<HandleState>, p: SubmitPayload)
    requires forall i :: 0 <= i < |ss| ==> p !in ss[i].inputQ
    ensures Occurrences(ss, p) == 0
    decreases |ss|
  {
    if |ss| > 0 {
      var n := |ss| - 1;
      assert p !in multiset(ss[n].inputQ);
      OccurrencesAbsent(ss[..n], p);
    }
  }

  /**
   * Reference accounting of the fan-out: the queues gain exactly one entry
   * referring to `p` per handle that admitted it, and no other entry.
   */
  lemma {:induction false} BroadcastAddsOneEntryPerAcceptor(ss: seq<HandleState>, p: SubmitPayload, oks: seq<bool>)
    requires |oks| == |ss|
    ensures Occurrences(Broadcast(ss, p, oks), p) == Occurrences(ss, p) + |AcceptedIndices(ss, oks)|
    decreases |ss|
  {
    if |ss| > 0 {
      var n := |ss| - 1;
      var after := Broadcast(ss, p, oks);
      assert after[..n] == Broadcast(ss[..n], p, oks[..n]);
      assert ss[..n] == ss[..|ss| - 1] && after[..n] == after[..|after| - 1];
      BroadcastAddsOneEntryPerAcceptor(ss[..n], p, oks[..n]);
      if Accepts(ss[n], oks[n]) {
        assert after[n].inputQ == ss[n].inputQ + [p];
        assert multiset(after[n].inputQ) == multiset(ss[n].inputQ) + multiset{p};
      } else {
        assert after[n] == ss[n];
      }
    }
  }

  /**
   * The fan-out as seen by one handle: an admitting handle has `p` appended
   * at the tail of its queue, a refusing one is left exactly as it was, and
   * either way nothing but the queue changes.
   */
  lemma BroadcastAtHandle(ss: seq<HandleState>, p: SubmitPayload, oks: seq<bool>, i: nat)
    requires |oks| == |ss| && i < |ss|
    ensures i in AcceptedIndices(ss, oks) <==> Accepts(ss[i], oks[i])
    ensures i in AcceptedIndices(ss, oks) ==> Broadcast(ss, p, oks)[i] == ss[i].(inputQ := ss[i].inputQ + [p])
    ensures i !in AcceptedIndices(ss, oks) ==> Broadcast(ss, p, oks)[i] == ss[i]
  {
    AcceptedIndicesExact(ss, oks);
    BroadcastAt(ss, p, oks, i);
  }

  /** Queue order is arrival order: two payloads admitted in turn sit at the tail in that order. */
  lemma TwoEnqueuesKeepOrder(s: HandleState, p1: SubmitPayload, p2: SubmitPayload)
    requires s.inputStatus == InputNormal
    ensures Enqueued(Enqueued(s, p1, true).state, p2, true).state.inputQ == s.inputQ + [p1, p2]
  {
  }

  /**
   * A handle that has been opened but has not yet received a request refuses
   * every payload: opening zeroes the input status, which is not NORMAL.
   */
  lemma OpenedHandleRefusesPayloads(queueOk: bool, qallOk: bool, p: SubmitPayload, cloneOk: bool)
    ensures Enqueued(Opened(queueOk, qallOk).state, p, cloneOk).rc == -1
  {
  }

  // ---------------------------------------------------------------------
  // Requests and expiry
  // ---------------------------------------------------------------------

  /** A second request replaces the first completely: only the last reply context survives. */
  lemma SecondPrepareOverwritesFirst(s: HandleState, reqId1: int64, info1: RpcInfo, ver1: int64, timeout1: int64,
                                     reqId2: int64, info2: RpcInfo, ver2: int64, timeout2: int64)
    ensures Prepared(Prepared(s, reqId1, info1, ver1, timeout1), reqId2, info2, ver2, timeout2)
         == Prepared(s, reqId2, info2, ver2, timeout2)
  {
  }

  /** Expiry is forgotten by the next request: it leaves no trace once a request is prepared. */
  lemma PrepareAfterExpiry(s: HandleState, reqId: int64, info: RpcInfo, ver: int64, timeout: int64)
    ensures Prepared(Expired(s), reqId, info, ver, timeout) == Prepared(s, reqId, info, ver, timeout)
  {
  }

  // ---------------------------------------------------------------------
  // Respond-or-skip over all handles (tqPushMsgNew)
  // ---------------------------------------------------------------------

  /** The response a handle receives for the blocks produced from the submit at version `ver`. */
  function ResponseFor(s: HandleState, blocks: seq<ResultBlock>, ver: int64): Response
  {
    Response(s.rpcInfo, RspHead(PollRsp, s.epoch, s.consumerId), DataBlkRsp(s.reqOffset, ver, blocks))
  }

  datatype PushStep = PushStep(rc: int32, state: HandleState, sent: Option<Response>)

  /**
   * One handle in tqPushMsgNew, as corrected: no blocks means no response
   * and the request stays open; a failed buffer allocation ends the call with
   * -1; otherwise one response is sent and the reply context is cleared. The
   * latch and the result arrays are not part of this step: the latch is
   * `RespondOrSkip`'s, and the arrays are counted in `PushedReleasing`.
   */
  function Pushed(s: HandleState, blocks: seq<ResultBlock>, allocOk: bool, ver: int64): PushStep
  {
    if |blocks| == 0 then PushStep(0, s, None)
    else if !allocOk then PushStep(-1, s, None)
    else PushStep(0, s.(rpcInfo := None), Some(ResponseFor(s, blocks, ver)))
  }

  /**
   * What one handle's step promises: -1 exactly when there are blocks but
   * no buffer; a response exactly when there are blocks and a buffer, carrying
   * the stored context and the blocks, after which the context is cleared;
   * nothing but the context changes, and nothing at all without a response.
   */
  lemma PushedOutcome(s: HandleState, blocks: seq<ResultBlock>, allocOk: bool, ver: int64)
    ensures var r := Pushed(s, blocks, allocOk, ver);
      && (r.rc == 0 || r.rc == -1)
      && (r.rc == -1 <==> |blocks| > 0 && !allocOk)
      && (r.sent.Some? <==> |blocks| > 0 && allocOk)
      && (r.sent.Some? ==> r.sent.value.info == s.rpcInfo && r.sent.value.body.blocks == blocks && r.state.rpcInfo.None?)
      && (r.sent.None? ==> r.state == s)
      && SameButRpcInfo(r.state, s)
  {
  }

  /** The handle would make the call fail: it has blocks to send but no buffer for them. */
  predicate Fails(blocks: seq<ResultBlock>, allocOk: bool)
  {
    |blocks| > 0 && !allocOk
  }

  /** Handle `i` is visited: no handle before it made the call fail. */
  predicate Reached(blocks: seq<seq<ResultBlock>>, oks: seq<bool>, i: nat)
    requires |oks| == |blocks| && i <= |blocks|
  {
    forall j :: 0 <= j < i ==> !Fails(blocks[j], oks[j])
  }

  /** The outcome of one call: return code, every handle afterwards, and the response sent to each (if any). */
  datatype DispatchResult = DispatchResult(rc: int32, states: seq<HandleState>, sent: seq<Option<Response>>)

  /**
   * Visiting the handles in iteration order until one fails; a handle past
   * the failure is left untouched and receives nothing.
   */
  function DispatchAll(ss: seq<HandleState>, blocks: seq<seq<ResultBlock>>, oks: seq<bool>, ver: int64): (r: DispatchResult)
    requires |blocks| == |ss| && |oks| == |ss|
    ensures |r.states| == |ss| && |r.sent| == |ss|
    decreases |ss|
  {
    if |ss| == 0 then DispatchResult(0, [], [])
    else
      var n := |ss| - 1;
      var prev := DispatchAll(ss[..n], blocks[..n], oks[..n], ver);
      if prev.rc != 0 then DispatchResult(prev.rc, prev.states + [ss[n]], prev.sent + [None])
      else
        var step := Pushed(ss[n], blocks[n], oks[n], ver);
        DispatchResult(step.rc, prev.states + [step.state], prev.sent + [step.sent])
  }

  lemma ReachedPrefix(blocks: seq<seq<ResultBlock>>, oks: seq<bool>, n: nat, i: nat)
    requires |oks| == |blocks| && i <= n <= |blocks|
    ensures Reached(blocks[..n], oks[..n], i) <==> Reached(blocks, oks, i)
  {
    assert forall j :: 0 <= j < i ==> blocks[..n][j] == blocks[j] && oks[..n][j] == oks[j];
  }

  /** The call returns 0 exactly when no handle fails, and -1 otherwise. */
  lemma {:induction false} DispatchAllRc(ss: seq<HandleState>, blocks: seq<seq<ResultBlock>>, oks: seq<bool>, ver: int64)
    requires |blocks| == |ss| && |oks| == |ss|
    ensures var r := DispatchAll(ss, blocks, oks, ver);
      && (r.rc == 0 || r.rc == -1)
      && (r.rc == 0 <==> Reached(blocks, oks, |ss|))
    decreases |ss|
  {
    if |ss| > 0 {
      var n := |ss| - 1;
      DispatchAllRc(ss[..n], blocks[..n], oks[..n], ver);
      ReachedPrefix(blocks, oks, n, n);
      assert Reached(blocks, oks, |ss|) <==> Reached(blocks, oks, n) && !Fails(blocks[n], oks[n]);
    }
  }

  /**
   * The call at one handle: a handle is processed by `Pushed` exactly when it
   * is reached; a handle that is not reached is left untouched and is sent
   * nothing.
   */
  lemma {:induction false} DispatchAllAt(ss: seq<HandleState>, blocks: seq<seq<ResultBlock>>, oks: seq<bool>, ver: int64, i: nat)
    requires |blocks| == |ss| && |oks| == |ss| && i < |ss|
    ensures var r := DispatchAll(ss, blocks, oks, ver);
      && r.states[i] == (if Reached(blocks, oks, i) then Pushed(ss[i], blocks[i], oks[i], ver).state else ss[i])
      && r.sent[i] == (if Reached(blocks, oks, i) then Pushed(ss[i], blocks[i], oks[i], ver).sent else None)
    decreases |ss|
  {
    var n := |ss| - 1;
    ReachedPrefix(blocks, oks, n, i);
    if i == n {
      DispatchAllRc(ss[..n], blocks[..n], oks[..n], ver);
    } else {
      DispatchAllAt(ss[..n], blocks[..n], oks[..n], ver, i);
      assert ss[..n][i] == ss[i] && blocks[..n][i] == blocks[i] && oks[..n][i] == oks[i];
    }
  }

  /** While no handle has failed, one more handle is one more step. */
  lemma DispatchAllStep(ss: seq<HandleState>, blocks: seq<seq<ResultBlock>>, oks: seq<bool>, ver: int64, i: nat)
    requires |blocks| == |ss| && |oks| == |ss| && i < |ss|
    requires DispatchAll(ss[..i], blocks[..i], oks[..i], ver).rc == 0
    ensures var prev := DispatchAll(ss[..i], blocks[..i], oks[..i], ver);
      var step := Pushed(ss[i], blocks[i], oks[i], ver);
      DispatchAll(ss[..i + 1], blocks[..i + 1], oks[..i + 1], ver)
        == DispatchResult(step.rc, prev.states + [step.state], prev.sent + [step.sent])
  {
    assert ss[..i + 1][..i] == ss[..i] && blocks[..i + 1][..i] == blocks[..i] && oks[..i + 1][..i] == oks[..i];
  }

  /** No response for each of `n` handles. */
  function Nothing(n: nat): (r: seq<Option<Response>>)
    ensures |r| == n && forall k :: 0 <= k < n ==> r[k].None?
  {
    seq(n, _ => None)
  }

  /**
   * Once a handle fails, the call stops: the handles before it are as the
   * prefix left them, it and every later handle are untouched, and none of
   * them is sent anything.
   */
  lemma {:induction false} DispatchAfterFailure(ss: seq<HandleState>, blocks: seq<seq<ResultBlock>>, oks: seq<bool>, ver: int64,
                                                i: nat, done: seq<HandleState>, sent: seq<Option<Response>>)
    requires |blocks| == |ss| && |oks| == |ss| && i < |ss|
    requires DispatchAll(ss[..i], blocks[..i], oks[..i], ver) == DispatchResult(0, done, sent)
    requires Fails(blocks[i], oks[i])
    ensures DispatchAll(ss, blocks, oks, ver) == DispatchResult(-1, done + ss[i..], sent + Nothing(|ss| - i))
    decreases |ss|
  {
    var n := |ss| - 1;
    assert ss[..n][..i] == ss[..i] && blocks[..n][..i] == blocks[..i] && oks[..n][..i] == oks[..i];
    if n == i {
      assert ss[i..] == [ss[i]];
      assert Nothing(|ss| - i) == [None];
    } else {
      DispatchAfterFailure(ss[..n], blocks[..n], oks[..n], ver, i, done, sent);
      assert ss[..n][i..] + [ss[n]] == ss[i..];
      assert Nothing(n - i) + [None] == Nothing(|ss| - i);
    }
  }

  /**
   * tqPushMsgNew as a whole: anything but a submit is ignored, returning 0
   * with no handle changed and nothing sent; every outcome has one state and
   * one response slot per handle.
   */
  function PushMsg(ss: seq<HandleState>, msgType: MsgType, blocks: seq<seq<ResultBlock>>, oks: seq<bool>, ver: int64): (r: DispatchResult)
    requires |blocks| == |ss| && |oks| == |ss|
    ensures |r.states| == |ss| && |r.sent| == |ss|
    ensures msgType != VndSubmit ==> r.rc == 0 && r.states == ss && forall k :: 0 <= k < |ss| ==> r.sent[k].None?
  {
    if msgType != VndSubmit then DispatchResult(0, ss, Nothing(|ss|))
    else DispatchAll(ss, blocks, oks, ver)
  }

  /** Two handle states that differ at most in their reply context. */
  predicate SameButRpcInfo(a: HandleState, b: HandleState)
  {
    a == b.(rpcInfo := a.rpcInfo)
  }

  /**
   * What one call does to each handle: only the reply context can change;
   * a handle gets a response iff it was reached and produced at least one
   * block (and then a buffer was available); the response carries POLL_RSP,
   * the handle's epoch, consumer id and requested offset, the submit's
   * version, the blocks and the reply context the handle held; after it the
   * context is cleared. A handle that produced no blocks keeps its context.
   */
  lemma {:induction false} DispatchAtHandle(ss: seq<HandleState>, blocks: seq<seq<ResultBlock>>, oks: seq<bool>, ver: int64, i: nat)
    requires |blocks| == |ss| && |oks| == |ss| && i < |ss|
    ensures var r := DispatchAll(ss, blocks, oks, ver);
      && SameButRpcInfo(r.states[i], ss[i])
      && (r.sent[i].Some? <==> Reached(blocks, oks, i) && |blocks[i]| > 0 && oks[i])
      && (r.sent[i].Some? ==>
            && r.sent[i].value == Response(ss[i].rpcInfo, RspHead(PollRsp, ss[i].epoch, ss[i].consumerId),
                                           DataBlkRsp(ss[i].reqOffset, ver, blocks[i]))
            && r.states[i].rpcInfo == None)
      && (r.sent[i].None? ==> r.states[i] == ss[i])
  {
    DispatchAllAt(ss, blocks, oks, ver, i);
  }

  /**
   * A request context is answered at most once: once a call has answered a
   * handle, a later call sends it only the cleared context, so a context the
   * handle held is never sent again before the next request is prepared.
   * (The code still answers later blocks, with that zero context.)
   */
  lemma {:induction false} AnsweredContextIsNotReused(
      ss: seq<HandleState>, blocks1: seq<seq<ResultBlock>>, oks1: seq<bool>, ver1: int64,
      blocks2: seq<seq<ResultBlock>>, oks2: seq<bool>, ver2: int64, i: nat)
    requires |blocks1| == |ss| && |oks1| == |ss| && |blocks2| == |ss| && |oks2| == |ss| && i < |ss|
    requires DispatchAll(ss, blocks1, oks1, ver1).sent[i].Some?
    ensures var r2 := DispatchAll(DispatchAll(ss, blocks1, oks1, ver1).states, blocks2, oks2, ver2);
      r2.sent[i].Some? ==> r2.sent[i].value.info == None
    ensures var r2 := DispatchAll(DispatchAll(ss, blocks1, oks1, ver1).states, blocks2, oks2, ver2);
      ss[i].rpcInfo.Some? && r2.sent[i].Some? ==> r2.sent[i].value.info != ss[i].rpcInfo
  {
    var r1 := DispatchAll(ss, blocks1, oks1, ver1);
    DispatchAtHandle(ss, blocks1, oks1, ver1, i);
    DispatchAtHandle(r1.states, blocks2, oks2, ver2, i);
  }

  /**
   * Long polling: a call that yields no blocks for a handle leaves its
   * request open, so the first later call that yields blocks answers that
   * very request, exactly once.
   */
  lemma LongPollThenAnswer(s: HandleState, info: RpcInfo, blocks: seq<ResultBlock>, ok1: bool, ver1: int64, ver2: int64)
    requires s.rpcInfo == Some(info) && |blocks| > 0
    ensures var s1 := Pushed(s, [], ok1, ver1);
      && s1.sent.None? && s1.state == s
      && Pushed(s1.state, blocks, true, ver2).sent == Some(ResponseFor(s, blocks, ver2))
      && Pushed(s1.state, blocks, true, ver2).state.rpcInfo == None
  {
  }

  /**
   * Expiry is advisory: a handle whose timer fired is answered exactly as it
   * would have been otherwise, and the timer never sends anything itself.
   */
  lemma ExpiryDoesNotCancel(s: HandleState, blocks: seq<ResultBlock>, ok: bool, ver: int64)
    ensures Pushed(Expired(s), blocks, ok, ver).sent == Pushed(s, blocks, ok, ver).sent
    ensures Expired(s).rpcInfo == s.rpcInfo
  {
  }

  // ---------------------------------------------------------------------
  // The per-handle step as the code is written
  // ---------------------------------------------------------------------

  /** One handle in tqPushMsgNew, counting the result arrays it leaves allocated. */
  datatype CountedStep = CountedStep(rc: int32, state: HandleState, sent: Option<Response>, arraysLeft: nat)

  /**
   * As written, the loop body takes the latch and allocates two result
   * arrays; the no-block path releases the latch but not the arrays, and the
   * allocation-failure path returns with the latch held and the arrays
   * allocated. Only the sending path releases both.
   */
  function PushedAsWritten(s: HandleState, blocks: seq<ResultBlock>, allocOk: bool, ver: int64): CountedStep
  {
    if |blocks| == 0 then CountedStep(0, s, None, 2)
    else if !allocOk then CountedStep(-1, s.(latched := true), None, 2)
    else CountedStep(0, s.(rpcInfo := None), Some(ResponseFor(s, blocks, ver)), 0)
  }

  /**
   * The corrected loop body with its result arrays made explicit: the two
   * arrays created for the handle are destroyed on each of the three paths
   * before it is left (the skip, the failed buffer allocation and the send),
   * and the latch is released on each of them. Apart from the arrays it is
   * the step `Pushed` describes.
   */
  function PushedReleasing(s: HandleState, blocks: seq<ResultBlock>, allocOk: bool, ver: int64): (r: CountedStep)
    ensures r.arraysLeft == 0
    ensures !s.latched ==> !r.state.latched
    ensures (var p := Pushed(s, blocks, allocOk, ver); r.rc == p.rc && r.state == p.state && r.sent == p.sent)
  {
    // each path destroys both arrays before leaving, so none is left
    if |blocks| == 0 then CountedStep(0, s, None, 0)
    else if !allocOk then CountedStep(-1, s, None, 0)
    else CountedStep(0, s.(rpcInfo := None), Some(ResponseFor(s, blocks, ver)), 0)
  }

  /**
   * On a failed buffer allocation the code as written returns with the
   * handle's latch still taken and both result arrays allocated; the
   * corrected step leaves the latch as it found it.
   */
  lemma AsWrittenKeepsLatchOnAllocFailure(s: HandleState, blocks: seq<ResultBlock>, ver: int64)
    requires !s.latched && |blocks| > 0
    ensures PushedAsWritten(s, blocks, false, ver).rc == -1
    ensures PushedAsWritten(s, blocks, false, ver).state.latched
    ensures PushedAsWritten(s, blocks, false, ver).arraysLeft == 2
    ensures !Pushed(s, blocks, false, ver).state.latched
    ensures PushedReleasing(s, blocks, false, ver).arraysLeft == 0
  {
  }

  /**
   * A handle that yields no blocks leaks both result arrays in the code as
   * written, where the corrected step leaves none, in the same handle state.
   */
  lemma AsWrittenLeaksArraysOnNoBlocks(s: HandleState, allocOk: bool, ver: int64)
    ensures PushedAsWritten(s, [], allocOk, ver).arraysLeft == 2
    ensures PushedReleasing(s, [], allocOk, ver).arraysLeft == 0
    ensures PushedAsWritten(s, [], allocOk, ver).state == PushedReleasing(s, [], allocOk, ver).state
  {
  }

  /** Where the code as written and the corrected step agree: every path that sends. */
  lemma AsWrittenAgreesWhenSending(s: HandleState, blocks: seq<ResultBlock>, ver: int64)
    requires |blocks| > 0
    ensures PushedAsWritten(s, blocks, true, ver).state == Pushed(s, blocks, true, ver).state
    ensures PushedAsWritten(s, blocks, true, ver).sent == Pushed(s, blocks, true, ver).sent
    ensures PushedAsWritten(s, blocks, true, ver).arraysLeft == 0
  {
  }
}
