/** The dispatcher as the program keeps it: maps updated in place, one method per stretch between awaits. */
module DispatcherProcess {
  import opened Options
  import opened Frames
  import opened Receipts
  import opened Dispatcher
  import opened DispatcherInvariant

  class ActionDispatcher {
    var disk: Disk
    var receiptCache: Option<Cache>
    var receiptLoad: Option<Loading>
    var receiptWrites: seq<RequestId>
    var serialized: Option<Cache>
    var inFlight: map<RequestId, Flight>
    var captures: map<RequestId, seq<Frame>>
    var sent: seq<(RequestId, Frame)>
    ghost var execs: map<RequestId, nat>
    ghost var prunes: map<RequestId, nat>
    ghost var produced: set<(RequestId, Frame)>

    ghost function Now(): State
      reads this
    {
      State(disk, receiptCache, receiptLoad, receiptWrites, serialized, inFlight, captures, sent,
            execs, prunes, produced)
    }

    ghost predicate Valid()
      reads this
    {
      Inv(Now())
    }

    /** A new process on whatever file the last one left. */
    constructor (found: Disk, ghost earlier: set<(RequestId, Frame)>)
      requires FramesOf(Contents(found), earlier)
      ensures Valid() && Init(Now()) && disk == found && produced == earlier
    {
      disk := found;
      receiptCache, receiptLoad, serialized := None, None, None;
      receiptWrites, inFlight, captures, sent := [], map[], map[], [];
      execs, prunes, produced := map[], map[], earlier;
      new;
      InitInv(Now());
    }

    method SendFrame(id: RequestId, frame: Frame)
      modifies this`captures, this`sent
      ensures Now() == SendActionFrame(old(Now()), id, frame)
    {
      if id in captures {
        captures := captures[id := captures[id] + [frame]];
      } else {
        sent := sent + [(id, frame)];
      }
    }

    /** The loops that hand the frames of a receipt to the client. */
    method SendReceipt(id: RequestId, frames: seq<Frame>)
      modifies this`sent
      ensures sent == old(sent) + Tagged(id, frames)
    {
      for i := 0 to |frames|
        invariant sent == old(sent) + Tagged(id, frames[..i])
      {
        assert Tagged(id, frames[..i + 1]) == Tagged(id, frames[..i]) + [(id, frames[i])];
        sent := sent + [(id, frames[i])];
      }
      assert frames[..|frames|] == frames;
    }

    method StartLoading()
      requires Valid() && Enabled(Now(), StartLoad)
      modifies this
      ensures Valid() && Now() == Apply(old(Now()), StartLoad)
    {
      StepInv(Now(), StartLoad);
      var found := Contents(disk);
      var result := Kept(found);
      if result == found {
        receiptCache := Some(result);
      } else {
        receiptLoad := Some(Loading(result, false));
      }
    }

    method Loaded()
      requires Valid() && Enabled(Now(), InstallLoad)
      modifies this`receiptCache, this`receiptLoad
      ensures Valid() && Now() == Apply(old(Now()), InstallLoad)
    {
      StepInv(Now(), InstallLoad);
      receiptCache, receiptLoad := Some(receiptLoad.value.result), None;
    }

    /** The rewrite of a file from which receipts are discarded ends. */
    method PruneWritten(ok: bool)
      requires Valid() && Enabled(Now(), EndPrune(ok))
      modifies this
      ensures Valid() && Now() == Apply(old(Now()), EndPrune(ok))
    {
      StepInv(Now(), EndPrune(ok));
      if ok {
        prunes := BumpAll(prunes, Contents(disk).Keys - receiptLoad.value.result.Keys);
        disk := Stored(receiptLoad.value.result);
        receiptLoad := Some(Loading(receiptLoad.value.result, true));
      } else {
        receiptLoad := None;
      }
    }

    /** The account is not connected: a failed acknowledgement and an error frame, and no claim. */
    method RefuseUnconnected(id: RequestId, action: string)
      requires Valid()
      modifies this`captures, this`sent
      ensures Valid() && Now() == Apply(old(Now()), RefuseNotConnected(id, action))
    {
      StepInv(Now(), RefuseNotConnected(id, action));
      SendFrame(id, Refusal(NotConnected, action));
      SendFrame(id, RefusalError(NotConnected, action));
    }

    /** The handler of `id` emits a frame. */
    method HandlerEmits(id: RequestId, frame: Frame)
      requires Valid() && Enabled(Now(), Emit(id, frame))
      modifies this`captures, this`sent, this`produced
      ensures Valid() && Now() == Apply(old(Now()), Emit(id, frame))
    {
      StepInv(Now(), Emit(id, frame));
      SendFrame(id, frame);
      produced := produced + {(id, frame)};
    }

    /** `dispatchAction` from the moment it has the cache up to its next await. */
    method Dispatch(id: RequestId, fingerprint: Fingerprint, action: string)
      requires Valid() && Enabled(Now(), Deliver(id, fingerprint, action))
      modifies this
      ensures Valid() && Now() == Apply(old(Now()), Deliver(id, fingerprint, action))
    {
      StepInv(Now(), Deliver(id, fingerprint, action));
      var cache := receiptCache.value;
      if id in cache {
        if cache[id].fingerprint != fingerprint {
          SendFrame(id, Refusal(BoundToOtherPayload, action));
          return;
        }
        if cache[id].status == Running {
          SendFrame(id, Refusal(MayHaveCompleted, action));
          return;
        }
        SendReceipt(id, cache[id].frames);
        return;
      }
      if id in inFlight {
        if inFlight[id].fingerprint != fingerprint {
          SendFrame(id, Refusal(ExecutingOtherPayload, action));
        }
        return;
      }
      receiptCache := Some(cache[id := Claim(fingerprint)]);
      receiptWrites := receiptWrites + [id];
      inFlight := inFlight[id := Flight(fingerprint, action, Claiming(None))];
    }

    /** The oldest queued persist serializes the cache as it is now. */
    method Serialize()
      requires Valid() && Enabled(Now(), BeginWrite)
      modifies this`serialized
      ensures Valid() && Now() == Apply(old(Now()), BeginWrite)
    {
      StepInv(Now(), BeginWrite);
      serialized := receiptCache;
    }

    /** It replaces the file, or fails, and its caller learns which. */
    method Written(ok: bool)
      requires Valid() && Enabled(Now(), EndWrite(ok))
      modifies this
      ensures Valid() && Now() == Apply(old(Now()), EndWrite(ok))
    {
      StepInv(Now(), EndWrite(ok));
      var owner := receiptWrites[0];
      if ok {
        disk := Stored(serialized.value);
      }
      receiptWrites, serialized := receiptWrites[1..], None;
      if owner in inFlight {
        inFlight := inFlight[owner := Told(inFlight[owner], ok)];
      }
    }

    /** The call that claimed `id` continues after its claim was persisted, or was not. */
    method ClaimAnswered(id: RequestId)
      requires Valid() && Enabled(Now(), ResumeClaim(id))
      modifies this
      ensures Valid() && Now() == Apply(old(Now()), ResumeClaim(id))
    {
      StepInv(Now(), ResumeClaim(id));
      if inFlight[id].phase.persisted.value {
        BeginExecution(id);
      } else {
        TakeBackClaim(id);
      }
    }

    method BeginExecution(id: RequestId)
      requires id in inFlight
      modifies this`inFlight, this`captures, this`execs
      ensures Now() == WithPhase(old(Now()), id, Executing).(
        captures := old(captures)[id := []], execs := Bump(old(execs), id))
    {
      inFlight := inFlight[id := inFlight[id].(phase := Executing)];
      captures := captures[id := []];
      execs := Bump(execs, id);
    }

    method TakeBackClaim(id: RequestId)
      requires id in inFlight && receiptCache.Some?
      modifies this`inFlight, this`receiptCache, this`captures, this`sent
      ensures Now() == SendActionFrame(
        WithPhase(old(Now()), id, Leaving).(cache := Some(old(receiptCache).value - {id})),
        id, Refusal(StorageUnavailable, old(inFlight)[id].action))
    {
      var flight := inFlight[id];
      inFlight := inFlight[id := flight.(phase := Leaving)];
      receiptCache := Some(receiptCache.value - {id});
      SendFrame(id, Refusal(StorageUnavailable, flight.action));
    }

    /** The execution of `id` ends: its captured frames become the receipt. */
    method Executed(id: RequestId, now: int)
      requires Valid() && Enabled(Now(), Finish(id, now))
      modifies this
      ensures Valid() && Now() == Apply(old(Now()), Finish(id, now))
    {
      StepInv(Now(), Finish(id, now));
      var frames := captures[id];
      captures := captures - {id};
      receiptCache := Some(receiptCache.value[id := Receipt(inFlight[id].fingerprint, frames, now, Complete)]);
      receiptWrites := receiptWrites + [id];
      inFlight := inFlight[id := inFlight[id].(phase := Settling(None))];
    }

    /** The call sends the frames of its receipt, whether or not the receipt was persisted. */
    method ReceiptAnswered(id: RequestId)
      requires Valid() && Enabled(Now(), Reply(id))
      modifies this
      ensures Valid() && Now() == Apply(old(Now()), Reply(id))
    {
      StepInv(Now(), Reply(id));
      SendReceipt(id, receiptCache.value[id].frames);
      inFlight := inFlight[id := inFlight[id].(phase := Leaving)];
    }

    method Left(id: RequestId)
      requires Valid() && Enabled(Now(), Leave(id))
      modifies this`inFlight
      ensures Valid() && Now() == Apply(old(Now()), Leave(id))
    {
      StepInv(Now(), Leave(id));
      inFlight := inFlight - {id};
    }
  }
}
