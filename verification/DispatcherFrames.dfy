/** Where the frames come from that a client receives. */
module DispatcherFrames {
  import opened Options
  import opened Frames
  import opened Receipts
  import opened Dispatcher
  import opened DispatcherInvariant

  /** A frame that neither reports success nor can make a receipt forgettable. */
  predicate Harmless(f: Frame) {
    !IsSuccess(f) && !IsUnsentFailure(f)
  }

  lemma {:induction false} IncludesCharacters(text: string, part: string, c: char)
    requires Includes(text, part) && c in part
    ensures c in text
  {
    if part <= text {
    } else {
      IncludesCharacters(text[1..], part, c);
    }
  }

  lemma StorageDetailsHaveNoQuote(reason: Reason)
    requires reason == StorageUnreadable || reason == StorageUnavailable
    ensures '\'' !in Sentence(reason)
  {
  }

  lemma ConnectionDetailHasNoQuote()
    ensures '\'' !in Sentence(NotConnected)
  {
  }

  lemma CompletionDetailHasNoQuote()
    ensures '\'' !in Sentence(MayHaveCompleted)
  {
  }

  lemma UnsentDetailHasQuote()
    ensures '\'' in UNSENT_DETAIL
  {
    assert UNSENT_DETAIL[45] == '\'';
  }

  /** Whatever the dispatcher refuses, its refusal is harmless, also when an open capture records it. */
  lemma RefusalsAreHarmless(reason: Reason, action: string)
    ensures Harmless(Refusal(reason, action)) && Harmless(RefusalError(reason, action))
  {
    if RefusalCode(reason) == SendFailed && Includes(Sentence(reason), UNSENT_DETAIL) {
      if reason == StorageUnreadable || reason == StorageUnavailable {
        StorageDetailsHaveNoQuote(reason);
      } else {
        ConnectionDetailHasNoQuote();
        CompletionDetailHasNoQuote();
      }
      UnsentDetailHasQuote();
      IncludesCharacters(Sentence(reason), UNSENT_DETAIL, '\'');
    }
  }

  predicate Genuine(produced: set<(RequestId, Frame)>, id: RequestId, frames: seq<Frame>) {
    forall f | f in frames :: (id, f) in produced || Harmless(f)
  }

  predicate GenuineIn(produced: set<(RequestId, Frame)>, id: RequestId, receipts: Cache) {
    id in receipts ==> Genuine(produced, id, receipts[id].frames)
  }

  predicate IdGenuine(s: State, id: RequestId) {
    && GenuineIn(s.produced, id, Contents(s.disk))
    && (s.cache.Some? ==> GenuineIn(s.produced, id, s.cache.value))
    && (s.snapshot.Some? ==> GenuineIn(s.produced, id, s.snapshot.value))
    && (s.loading.Some? ==> GenuineIn(s.produced, id, s.loading.value.result))
    && (id in s.captures ==> Genuine(s.produced, id, s.captures[id]))
  }

  predicate HasStarted(phase: Phase) {
    phase.Executing? || phase.Settling?
  }

  /** `before` are the frames that earlier processes produced. */
  ghost predicate FramesOk(s: State, before: set<(RequestId, Frame)>) {
    && (forall id :: IdGenuine(s, id))
    && (forall x | x in s.sent :: x in s.produced || Harmless(x.1))
    && (forall x | x in s.produced :: x in before || Count(s.execs, x.0) >= 1)
    && (forall id | id in s.flights :: HasStarted(s.flights[id].phase) ==> Count(s.execs, id) >= 1)
  }

  lemma InitFrames(s: State)
    requires Init(s)
    ensures FramesOk(s, s.produced)
  {
    forall id ensures IdGenuine(s, id) {
      var found := Contents(s.disk);
      if id in found {
        forall f | f in found[id].frames ensures (id, f) in s.produced {
          var i :| 0 <= i < |found[id].frames| && found[id].frames[i] == f;
        }
      }
    }
  }

  lemma SendFrames(s: State, id: RequestId, frame: Frame, before: set<(RequestId, Frame)>)
    requires FramesOk(s, before)
    requires (id, frame) in s.produced || Harmless(frame)
    ensures FramesOk(SendActionFrame(s, id, frame), before)
  {
    var s' := SendActionFrame(s, id, frame);
    forall k ensures IdGenuine(s', k) {
      assert IdGenuine(s, k);
    }
  }

  lemma RefusalFrames(s: State, id: RequestId, reason: Reason, action: string, before: set<(RequestId, Frame)>)
    requires FramesOk(s, before)
    ensures FramesOk(SendActionFrame(s, id, Refusal(reason, action)), before)
    ensures FramesOk(SendActionFrame(s, id, RefusalError(reason, action)), before)
  {
    RefusalsAreHarmless(reason, action);
    SendFrames(s, id, Refusal(reason, action), before);
    SendFrames(s, id, RefusalError(reason, action), before);
  }

  lemma TaggedFrames(id: RequestId, frames: seq<Frame>)
    ensures forall x | x in Tagged(id, frames) :: x.0 == id && x.1 in frames
  {
  }

  lemma ReplayFrames(s: State, id: RequestId, before: set<(RequestId, Frame)>)
    requires FramesOk(s, before) && s.cache.Some? && id in s.cache.value
    ensures FramesOk(s.(sent := s.sent + Tagged(id, s.cache.value[id].frames)), before)
  {
    var s' := s.(sent := s.sent + Tagged(id, s.cache.value[id].frames));
    assert IdGenuine(s, id);
    TaggedFrames(id, s.cache.value[id].frames);
    forall k ensures IdGenuine(s', k) {
      assert IdGenuine(s, k);
    }
  }

  lemma DeliverFrames(s: State, id: RequestId, fingerprint: Fingerprint, action: string,
                      before: set<(RequestId, Frame)>)
    requires FramesOk(s, before) && s.cache.Some?
    ensures FramesOk(DeliverStep(s, id, fingerprint, action), before)
  {
    var s' := DeliverStep(s, id, fingerprint, action);
    if id in s.cache.value {
      if s.cache.value[id].fingerprint != fingerprint {
        RefusalFrames(s, id, BoundToOtherPayload, action, before);
      } else if s.cache.value[id].status == Running {
        RefusalFrames(s, id, MayHaveCompleted, action, before);
      } else {
        ReplayFrames(s, id, before);
      }
    } else if id in s.flights {
      if s.flights[id].fingerprint != fingerprint {
        RefusalFrames(s, id, ExecutingOtherPayload, action, before);
      }
    } else {
      forall k ensures IdGenuine(s', k) {
        assert IdGenuine(s, k);
      }
    }
  }

  lemma EmitFrames(s: State, id: RequestId, frame: Frame, before: set<(RequestId, Frame)>)
    requires FramesOk(s, before) && Enabled(s, Emit(id, frame))
    ensures FramesOk(Apply(s, Emit(id, frame)), before)
  {
    var s1 := s.(produced := s.produced + {(id, frame)});
    forall k ensures IdGenuine(s1, k) {
      assert IdGenuine(s, k);
    }
    assert Count(s.execs, id) >= 1;
    assert FramesOk(s1, before);
    SendFrames(s1, id, frame, before);
    assert Apply(s, Emit(id, frame)) == SendActionFrame(s1, id, frame);
  }

  lemma ReplyFrames(s: State, id: RequestId, before: set<(RequestId, Frame)>)
    requires FramesOk(s, before) && Enabled(s, Reply(id))
    ensures FramesOk(Apply(s, Reply(id)), before)
  {
    ReplayFrames(s, id, before);
    var s1 := s.(sent := s.sent + Tagged(id, s.cache.value[id].frames));
    var s' := Apply(s, Reply(id));
    forall k ensures IdGenuine(s', k) {
      assert IdGenuine(s1, k);
    }
  }

  lemma ResumeClaimFrames(s: State, id: RequestId, before: set<(RequestId, Frame)>)
    requires FramesOk(s, before) && Enabled(s, ResumeClaim(id))
    ensures FramesOk(ResumeClaimStep(s, id), before)
  {
    if s.flights[id].phase.persisted.value {
      var s' := ResumeClaimStep(s, id);
      forall k ensures IdGenuine(s', k) {
        assert IdGenuine(s, k);
      }
    } else {
      var s1 := WithPhase(s, id, Leaving).(cache := Some(s.cache.value - {id}));
      forall k ensures IdGenuine(s1, k) {
        assert IdGenuine(s, k);
      }
      RefusalFrames(s1, id, StorageUnavailable, s.flights[id].action, before);
    }
  }

  lemma KeptGenuine(produced: set<(RequestId, Frame)>, id: RequestId, receipts: Cache)
    requires GenuineIn(produced, id, receipts)
    ensures GenuineIn(produced, id, Kept(receipts))
  {
    KeptIsPart(receipts, id);
  }

  lemma StartLoadFrames(s: State, before: set<(RequestId, Frame)>)
    requires FramesOk(s, before) && Enabled(s, StartLoad)
    ensures FramesOk(StartLoadStep(s), before)
  {
    var s' := StartLoadStep(s);
    forall k ensures IdGenuine(s', k) {
      assert IdGenuine(s, k);
      KeptGenuine(s.produced, k, Contents(s.disk));
    }
  }

  lemma EndPruneFrames(s: State, ok: bool, before: set<(RequestId, Frame)>)
    requires FramesOk(s, before) && Enabled(s, EndPrune(ok))
    ensures FramesOk(EndPruneStep(s, ok), before)
  {
    var s' := EndPruneStep(s, ok);
    forall k ensures IdGenuine(s', k) {
      assert IdGenuine(s, k);
    }
    if ok {
      assert forall k :: Count(s'.execs, k) == Count(s.execs, k);
    }
  }

  lemma WriteFrames(s: State, ok: bool, before: set<(RequestId, Frame)>)
    requires Inv(s) && FramesOk(s, before) && Enabled(s, EndWrite(ok))
    ensures FramesOk(EndWriteStep(s, ok), before)
  {
    var s' := EndWriteStep(s, ok);
    forall k ensures IdGenuine(s', k) {
      assert IdGenuine(s, k);
    }
    assert s.writes[0] in s.writes;
    assert IdOk(s, s.writes[0]);
  }

  lemma QuietFrames(s: State, e: Event, before: set<(RequestId, Frame)>)
    requires FramesOk(s, before) && Enabled(s, e)
    requires e.InstallLoad? || e.BeginWrite? || e.Finish? || e.Leave? || e.Crash?
    ensures FramesOk(Apply(s, e), before)
  {
    var s' := Apply(s, e);
    forall k ensures IdGenuine(s', k) {
      assert IdGenuine(s, k);
    }
  }

  lemma StepFrames(s: State, e: Event, before: set<(RequestId, Frame)>)
    requires Inv(s) && FramesOk(s, before) && Enabled(s, e)
    ensures FramesOk(Apply(s, e), before)
  {
    match e
    case RefuseNotConnected(id, action) =>
      RefusalFrames(s, id, NotConnected, action, before);
      RefusalFrames(SendActionFrame(s, id, Refusal(NotConnected, action)), id, NotConnected, action, before);
    case RefuseUnreadable(id, action) => RefusalFrames(s, id, StorageUnreadable, action, before);
    case Deliver(id, fingerprint, action) => DeliverFrames(s, id, fingerprint, action, before);
    case ResumeClaim(id) => ResumeClaimFrames(s, id, before);
    case Emit(id, frame) => EmitFrames(s, id, frame, before);
    case Reply(id) => ReplyFrames(s, id, before);
    case StartLoad => StartLoadFrames(s, before);
    case EndPrune(ok) => EndPruneFrames(s, ok, before);
    case EndWrite(ok) => WriteFrames(s, ok, before);
    case _ => QuietFrames(s, e, before);
  }

  lemma {:induction false} RunFrames(s: State, events: seq<Event>, before: set<(RequestId, Frame)>)
    requires Inv(s) && FramesOk(s, before) && Runs(s, events)
    ensures FramesOk(After(s, events), before)
    decreases |events|
  {
    if events != [] {
      StepInv(s, events[0]);
      StepFrames(s, events[0], before);
      RunFrames(Apply(s, events[0]), events[1..], before);
    }
  }
}
