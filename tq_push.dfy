/**
 * The push path of a vnode's TQ as imperative code: push handles whose
 * fields are updated in place, the fan-out of a submit over all handles,
 * and the respond-or-skip pass over the handles waiting for data.
 *
 * Every method is proved to leave the handles in the state computed by the
 * corresponding function of module PushModel, whose lemmas say what that
 * state means.
 */
module TqPush {
  import opened Wrappers
  import opened CTypes
  import opened PushModel

  /** The push part of a TQ handle (one per subscribed consumer). */
  class PushHandle {
    var inputStatus: int8
    var execStatus: int8
    var tmrStopped: bool
    var reqId: int64
    var processedVer: int64
    var reqOffset: int64
    var epoch: int32
    var consumerId: int64
    var rpcInfo: Option<RpcInfo>
    var timer: Option<int32>
    var inputQ: seq<SubmitPayload>
    var queueOpen: bool
    var qallOpen: bool
    var latched: bool

    /** The handle's fields as one value. */
    function State(): HandleState
      reads this
    {
      HandleState(inputStatus, execStatus, tmrStopped, reqId, processedVer, reqOffset, epoch,
                  consumerId, rpcInfo, timer, inputQ, queueOpen, qallOpen, latched)
    }

    /** A handle as allocated zero-filled, before its push part is opened. */
    constructor ()
      ensures State() == Zeroed
    {
      inputStatus, execStatus, tmrStopped := 0, 0, false;
      reqId, processedVer, reqOffset, epoch, consumerId := 0, 0, 0, 0, 0;
      rpcInfo, timer, inputQ := None, None, [];
      queueOpen, qallOpen, latched := false, false, false;
    }

    /**
     * tqOpenPushHandle. `queueOk` and `qallOk` are the outcomes of the two
     * allocations; a failed open leaves neither allocated.
     */
    method Open(queueOk: bool, qallOk: bool) returns (rc: int32)
      modifies this
      ensures StepResult(rc, State()) == Opened(queueOk, qallOk)
    {
      Clear();
      queueOpen := queueOk;  // taosOpenQueue
      qallOpen := qallOk;    // taosAllocateQall
      if !queueOpen || !qallOpen {
        if queueOpen {
          queueOpen := false;  // taosCloseQueue
        }
        if qallOpen {
          qallOpen := false;  // taosFreeQall
        }
        return -1;
      }
      return 0;
    }

    /** The memset at the start of tqOpenPushHandle: every field of the push part becomes zero. */
    method Clear()
      modifies this
      ensures State() == Zeroed
    {
      ClearRequest();
      ClearQueue();
    }

    /** The request half of the memset. */
    method ClearRequest()
      modifies this`reqId, this`processedVer, this`reqOffset, this`epoch, this`consumerId, this`rpcInfo, this`timer
      ensures reqId == 0 && processedVer == 0 && reqOffset == 0 && epoch == 0 && consumerId == 0
      ensures rpcInfo == None && timer == None
    {
      reqId, processedVer, reqOffset, epoch, consumerId := 0, 0, 0, 0, 0;
      rpcInfo, timer := None, None;
    }

    /** The status and queue half of the memset. */
    method ClearQueue()
      modifies this`inputStatus, this`execStatus, this`tmrStopped, this`inputQ, this`queueOpen, this`qallOpen, this`latched
      ensures inputStatus == 0 && execStatus == 0 && !tmrStopped
      ensures inputQ == [] && !queueOpen && !qallOpen && !latched
    {
      inputStatus, execStatus, tmrStopped := 0, 0, false;
      inputQ, queueOpen, qallOpen, latched := [], false, false, false;
    }

    /**
     * tqPreparePush: store the request and re-arm the expiry timer. Always 0.
     * Only the fields named in the frame are written.
     */
    method PreparePush(newReqId: int64, info: RpcInfo, newProcessedVer: int64, timeout: int64) returns (rc: int32)
      modifies this`rpcInfo, this`reqId, this`processedVer, this`inputStatus, this`tmrStopped, this`timer
      ensures rc == 0
      ensures State() == Prepared(old(State()), newReqId, info, newProcessedVer, timeout)
      ensures rpcInfo == Some(info) && reqId == newReqId && processedVer == newProcessedVer
      ensures inputStatus == InputNormal && !tmrStopped
    {
      rpcInfo := Some(info);
      reqId := newReqId;
      processedVer := newProcessedVer;
      inputStatus := InputNormal;
      tmrStopped := false;
      timer := Some(ToInt32(timeout));  // taosTmrReset
      return 0;
    }

    /** tqTmrRspFunc: mark the request as expired; nothing is sent and nothing else changes. */
    method TimerFired()
      modifies this`tmrStopped
      ensures State() == Expired(old(State()))
      ensures tmrStopped && rpcInfo == old(rpcInfo)
    {
      tmrStopped := true;
    }

    /**
     * tqEnqueue. `cloneOk` is the outcome of the reference clone. An admitted
     * payload is the very object `p`, appended once at the tail, and its
     * count goes up by one; otherwise neither the queue nor the count moves.
     */
    method Enqueue(p: SubmitPayload, cloneOk: bool) returns (rc: int32)
      modifies this`inputQ, p`refCount
      ensures StepResult(rc, State()) == Enqueued(old(State()), p, cloneOk)
      ensures rc == 0 <==> Accepts(old(State()), cloneOk)
      ensures p.refCount == old(p.refCount) + (if rc == 0 then 1 else 0)
    {
      if inputStatus == InputNormal {
        if !cloneOk {
          return -1;
        }
        p.refCount := p.refCount + 1;  // streamSubmitRefClone shares the payload
        inputQ := inputQ + [p];        // taosWriteQitem
        return 0;
      }
      return -1;
    }

    /**
     * The body of the loop in tqPushMsgNew for this handle, under its latch:
     * `rspBlocks` is what the execution engine produced. No blocks: nothing is
     * sent. Blocks but no buffer: -1. Otherwise the response is returned for
     * sending and the reply context is cleared. The latch is free again on
     * every path.
     */
    method RespondOrSkip(rspBlocks: seq<ResultBlock>, allocOk: bool, ver: int64) returns (rc: int32, rsp: Option<Response>)
      requires !latched
      modifies this`latched, this`rpcInfo
      ensures PushStep(rc, State(), rsp) == Pushed(old(State()), rspBlocks, allocOk, ver)
    {
      latched := true;  // taosWLockLatch
      if |rspBlocks| == 0 {
        latched := false;
        return 0, None;
      }
      if !allocOk {
        latched := false;
        return -1, None;
      }
      rsp := Some(Response(rpcInfo, RspHead(PollRsp, epoch, consumerId), DataBlkRsp(reqOffset, ver, rspBlocks)));
      rpcInfo := None;
      latched := false;
      return 0, rsp;
    }
  }

  /** No handle appears twice in an iteration over a registry. */
  predicate Distinct(hs: seq<PushHandle>)
  {
    forall i, j :: 0 <= i < j < |hs| ==> hs[i] != hs[j]
  }

  /** The states of the handles, in iteration order. */
  function States(hs: seq<PushHandle>): (r: seq<HandleState>)
    reads hs
    ensures |r| == |hs|
    decreases |hs|
  {
    if |hs| == 0 then [] else States(hs[..|hs| - 1]) + [hs[|hs| - 1].State()]
  }

  /** The state at position `i` is the state of handle `hs[i]`. */
  lemma {:induction false} StatesAt(hs: seq<PushHandle>, i: nat)
    requires i < |hs|
    ensures States(hs)[i] == hs[i].State()
    decreases |hs|
  {
    var n := |hs| - 1;
    if i < n {
      StatesAt(hs[..n], i);
    }
  }

  /** The broadcaster drops its own reference to the payload; no handle changes. */
  method DropRef(hs: seq<PushHandle>, payload: SubmitPayload)
    requires payload.refCount > 0
    modifies payload
    ensures payload.refCount == old(payload.refCount) - 1
    ensures States(hs) == old(States(hs))
  {
    payload.RefDec();
  }

  /** Replacing the first state not yet visited extends the visited part by one. */
  lemma ReplaceNext(done: seq<HandleState>, before: seq<HandleState>, i: nat, x: HandleState)
    requires |done| == i < |before|
    ensures (done + before[i..])[i := x] == (done + [x]) + before[i + 1..]
  {
    var s, t := (done + before[i..])[i := x], (done + [x]) + before[i + 1..];
    assert |s| == |t|;
    forall k | 0 <= k < |s|
      ensures s[k] == t[k]
    {
    }
  }

  /**
   * tqEnqueueAll. `hs` is the handle registry in its (unspecified) iteration
   * order, `submitOk` the outcome of wrapping the request `req` in a payload,
   * `cloneOks[i]` the outcome of the reference clone for `hs[i]`.
   *
   * If the payload cannot be created nothing is touched and -1 is returned.
   * Otherwise every handle is offered the payload, refusals are skipped,
   * execution is requested (in `execReqs`, by position) for the admitting
   * handles that were IDLE or CLOSING, and the broadcaster's own reference
   * is dropped once at the end: the payload's count is then exactly the
   * number of queue entries referring to it, one per admitting handle.
   */
  method EnqueueAll(hs: seq<PushHandle>, req: nat, submitOk: bool, cloneOks: seq<bool>)
    returns (rc: int32, payload: SubmitPayload?, execReqs: seq<nat>)
    requires |cloneOks| == |hs| && Distinct(hs)
    modifies hs
    ensures !submitOk ==> rc == -1 && payload == null && execReqs == [] && States(hs) == old(States(hs))
    ensures submitOk ==> rc == 0 && payload != null && fresh(payload) && payload.req == req
    ensures submitOk ==> States(hs) == Broadcast(old(States(hs)), payload, cloneOks)
    ensures submitOk ==> execReqs == ExecRequests(old(States(hs)), cloneOks)
    ensures submitOk ==> payload.refCount == |AcceptedIndices(old(States(hs)), cloneOks)|
    ensures submitOk ==> payload.refCount == Occurrences(States(hs), payload)
  {
    ghost var before := States(hs);
    if !submitOk {
      return -1, null, [];
    }
    forall k | 0 <= k < |hs|
      ensures before[k] == hs[k].State()
    {
      StatesAt(hs, k);
    }
    payload := new SubmitPayload(req);
    execReqs := OfferAll(hs, payload, cloneOks);
    DropRef(hs, payload);
    rc := 0;
    BroadcastAddsOneEntryPerAcceptor(before, payload, cloneOks);
    OccurrencesAbsent(before, payload);
  }

  /**
   * The loop of tqEnqueueAll: the payload, held once by the broadcaster, is
   * offered to every handle in turn.
   */
  method OfferAll(hs: seq<PushHandle>, payload: SubmitPayload, cloneOks: seq<bool>) returns (execReqs: seq<nat>)
    requires |cloneOks| == |hs| && Distinct(hs) && payload.refCount == 1
    modifies hs, payload
    ensures States(hs) == Broadcast(old(States(hs)), payload, cloneOks)
    ensures execReqs == ExecRequests(old(States(hs)), cloneOks)
    ensures payload.refCount == 1 + |AcceptedIndices(old(States(hs)), cloneOks)|
  {
    ghost var before := States(hs);
    execReqs := [];
    var i := 0;
    while i < |hs|
      invariant 0 <= i <= |hs|
      invariant States(hs) == Broadcast(before[..i], payload, cloneOks[..i]) + before[i..]
      invariant payload.refCount == 1 + |AcceptedIndices(before[..i], cloneOks[..i])|
      invariant execReqs == ExecRequests(before[..i], cloneOks[..i])
    {
      execReqs := Offer(hs, i, payload, cloneOks, before, execReqs);
      BroadcastStep(before, payload, cloneOks, i);
      ReplaceNext(Broadcast(before[..i], payload, cloneOks[..i]), before, i, Enqueued(before[i], payload, cloneOks[i]).state);
      i := i + 1;
    }
    assert before[..|hs|] == before && cloneOks[..|hs|] == cloneOks;
  }

  /**
   * One pass of the loop of tqEnqueueAll, at position `i` of the registry:
   * the payload is offered to `hs[i]`, and execution is requested for it if it
   * admitted the payload and was IDLE or CLOSING. Only `hs[i]` changes.
   */
  method Offer(hs: seq<PushHandle>, i: nat, payload: SubmitPayload, cloneOks: seq<bool>,
               ghost before: seq<HandleState>, execReqs: seq<nat>)
    returns (execReqs': seq<nat>)
    requires |cloneOks| == |hs| && |before| == |hs| && Distinct(hs) && i < |hs|
    requires States(hs)[i] == before[i]
    requires payload.refCount == 1 + |AcceptedIndices(before[..i], cloneOks[..i])|
    requires execReqs == ExecRequests(before[..i], cloneOks[..i])
    modifies hs[i], payload
    ensures States(hs) == old(States(hs))[i := Enqueued(before[i], payload, cloneOks[i]).state]
    ensures payload.refCount == 1 + |AcceptedIndices(before[..i + 1], cloneOks[..i + 1])|
    ensures execReqs' == ExecRequests(before[..i + 1], cloneOks[..i + 1])
  {
    AcceptedIndicesStep(before, cloneOks, i);
    ExecRequestsStep(before, cloneOks, i);
    forall k | 0 <= k < |hs|
      ensures States(hs)[k] == hs[k].State()
    {
      StatesAt(hs, k);
    }
    var r := hs[i].Enqueue(payload, cloneOks[i]);
    execReqs' := execReqs;
    if r == 0 {
      var execStatus := hs[i].execStatus;
      if execStatus == ExecIdle || execStatus == ExecClosing {
        execReqs' := execReqs + [i];  // tqSendExecReq
      }
    }
    forall k | 0 <= k < |hs|
      ensures States(hs)[k] == old(States(hs))[i := Enqueued(before[i], payload, cloneOks[i]).state][k]
    {
      StatesAt(hs, k);
    }
  }

  /**
   * One pass of the loop of tqPushMsgNew, at position `i` of the registry,
   * with `done` and `sentSoFar` what the handles before it yielded: either
   * the pass goes on with one more handle, or the call ends here with -1.
   * Only `hs[i]` changes.
   */
  method Visit(hs: seq<PushHandle>, i: nat, ver: int64, blocks: seq<seq<ResultBlock>>, allocOks: seq<bool>,
               ghost before: seq<HandleState>, ghost done: seq<HandleState>, sentSoFar: seq<Option<Response>>)
    returns (stepRc: int32, rsp: Option<Response>)
    requires |blocks| == |hs| && |allocOks| == |hs| && |before| == |hs| && Distinct(hs)
    requires i < |hs| && |done| == i && States(hs)[i] == before[i] && !before[i].latched
    requires DispatchAll(before[..i], blocks[..i], allocOks[..i], ver) == DispatchResult(0, done, sentSoFar)
    modifies hs[i]
    ensures stepRc == 0 ==> States(hs) == old(States(hs))[i := hs[i].State()]
    ensures stepRc != 0 ==> States(hs) == old(States(hs))
    ensures stepRc == 0 ==>
      DispatchAll(before[..i + 1], blocks[..i + 1], allocOks[..i + 1], ver) == DispatchResult(0, done + [hs[i].State()], sentSoFar + [rsp])
    ensures stepRc != 0 ==>
      DispatchAll(before, blocks, allocOks, ver) == DispatchResult(-1, done + before[i..], sentSoFar + Nothing(|hs| - i))
  {
    forall k | 0 <= k < |hs|
      ensures States(hs)[k] == hs[k].State()
    {
      StatesAt(hs, k);
    }
    stepRc, rsp := hs[i].RespondOrSkip(blocks[i], allocOks[i], ver);
    forall k | 0 <= k < |hs|
      ensures States(hs)[k] == hs[k].State()
    {
      StatesAt(hs, k);
    }
    if stepRc != 0 {
      DispatchAfterFailure(before, blocks, allocOks, ver, i, done, sentSoFar);
      assert forall k :: 0 <= k < |hs| ==> States(hs)[k] == old(States(hs))[k];
    } else {
      DispatchAllStep(before, blocks, allocOks, ver, i);
      assert forall k :: 0 <= k < |hs| ==> States(hs)[k] == old(States(hs))[i := hs[i].State()][k];
    }
  }

  /** The loop of tqPushMsgNew over the push registry, for a submit. */
  method Dispatch(hs: seq<PushHandle>, ver: int64, blocks: seq<seq<ResultBlock>>, allocOks: seq<bool>)
    returns (rc: int32, sent: seq<Option<Response>>)
    requires |blocks| == |hs| && |allocOks| == |hs| && Distinct(hs)
    requires forall k :: 0 <= k < |hs| ==> !hs[k].latched
    modifies hs
    ensures DispatchResult(rc, States(hs), sent) == DispatchAll(old(States(hs)), blocks, allocOks, ver)
  {
    ghost var before := States(hs);
    forall k | 0 <= k < |hs|
      ensures !before[k].latched
    {
      StatesAt(hs, k);
    }
    ghost var done: seq<HandleState> := [];
    var i := 0;
    sent := [];
    while i < |hs|
      invariant 0 <= i <= |hs| && |done| == i
      invariant forall k :: 0 <= k < |before| ==> !before[k].latched
      invariant States(hs) == done + before[i..]
      invariant DispatchAll(before[..i], blocks[..i], allocOks[..i], ver) == DispatchResult(0, done, sent)
    {
      var stepRc, rsp := Visit(hs, i, ver, blocks, allocOks, before, done, sent);
      if stepRc != 0 {
        return -1, sent + Nothing(|hs| - i);
      }
      ReplaceNext(done, before, i, hs[i].State());
      sent := sent + [rsp];
      done := done + [hs[i].State()];
      i := i + 1;
    }
    assert before[..|hs|] == before && blocks[..|hs|] == blocks && allocOks[..|hs|] == allocOks;
    return 0, sent;
  }

  /**
   * tqPushMsgNew. Anything but a submit returns 0 and touches nothing; for a
   * submit every handle of the push registry is visited in turn, as PushMsg
   * describes: a handle with result blocks gets exactly one response and its
   * reply context is cleared, a handle without gets nothing, and a failed
   * response allocation ends the call with -1.
   */
  method PushMsgNew(hs: seq<PushHandle>, msgType: MsgType, ver: int64, blocks: seq<seq<ResultBlock>>, allocOks: seq<bool>)
    returns (rc: int32, sent: seq<Option<Response>>)
    requires |blocks| == |hs| && |allocOks| == |hs| && Distinct(hs)
    requires forall k :: 0 <= k < |hs| ==> !hs[k].latched
    modifies hs
    ensures DispatchResult(rc, States(hs), sent) == PushMsg(old(States(hs)), msgType, blocks, allocOks, ver)
  {
    if msgType != VndSubmit {
      return 0, Nothing(|hs|);
    }
    rc, sent := Dispatch(hs, ver, blocks, allocOks);
  }
}
