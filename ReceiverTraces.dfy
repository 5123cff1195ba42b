/** What the receiver does over many calls: runs of consecutive receive
    calls (frames) and sessions mixing every operation, with the properties
    the lifecycle promises across call boundaries. */
module ReceiverTraces {
  import opened SpoutTypes
  import opened ReceiverSpec

  /** One receive call with the registry's reply and the copy's success. */
  datatype Frame = Frame(dst: Destination, hostFbo: U32, reply: Option<SenderInfo>, copyOk: bool)

  /** A run of frames: the final state, each call's return value, the
      update flag each call leaves for `IsUpdated`, and every external call. */
  datatype Trace = Trace(after: Receiver, results: seq<bool>, updates: seq<bool>, calls: seq<Call>)

  function Step(s: Receiver, f: Frame): Outcome {
    Receive(s, f.dst, f.hostFbo, f.reply, f.copyOk)
  }

  /** Receive calls one after another, each starting from the state the
      previous one left. */
  function Frames(s: Receiver, frames: seq<Frame>): (t: Trace)
    ensures |t.results| == |frames| && |t.updates| == |frames|
    ensures t.after.setupName == s.setupName
    ensures t.after.invert == s.invert && t.after.useActive == s.useActive
    ensures CopyCount(t.calls) <= |frames|
    decreases |frames|
  {
    if frames == [] then Trace(s, [], [], [])
    else
      var o := Step(s, frames[0]);
      var t := Frames(o.after, frames[1..]);
      CopyCountAppend(o.calls, t.calls);
      Trace(t.after, [o.result] + t.results, [o.after.update] + t.updates, o.calls + t.calls)
  }

  /** One frame from a stable sender: a copy, and nothing else changes. */
  lemma StableStep(s: Receiver, f: Frame)
    requires s.connected && f.reply == Some(s.Info())
    ensures var o := Step(s, f);
      o.after == s.(update := false) && o.result == f.copyOk && CopyCount(o.calls) == 1
  {
  }

  /** A stable sender whose triple matches the cached one leaves the
      cached name and size alone and dispatches one copy per call. */
  lemma {:induction false} StableSenderKeepsTriple(s: Receiver, frames: seq<Frame>)
    requires s.connected
    requires forall i | 0 <= i < |frames| :: frames[i].reply == Some(s.Info())
    ensures Frames(s, frames).after == (if frames == [] then s else s.(update := false))
    ensures CopyCount(Frames(s, frames).calls) == |frames|
    decreases |frames|
  {
    if frames != [] {
      StableStep(s, frames[0]);
      var rest := frames[1..];
      StableSenderKeepsTriple(s.(update := false), rest);
      FramesCons(s, frames[0], rest);
      assert frames == [frames[0]] + rest;
    }
  }

  /** The copy results that a run of frames hands to the receiver. */
  function CopyResults(frames: seq<Frame>): (r: seq<bool>)
    ensures |r| == |frames|
    ensures forall i | 0 <= i < |frames| :: r[i] == frames[i].copyOk
    decreases |frames|
  {
    if frames == [] then [] else [frames[0].copyOk] + CopyResults(frames[1..])
  }

  /** `n` copies of `b`. */
  function Repeat(b: bool, n: nat): (r: seq<bool>)
    ensures |r| == n && forall i | 0 <= i < n :: r[i] == b
  {
    if n == 0 then [] else [b] + Repeat(b, n - 1)
  }

  /** Against a stable sender every call returns its copy's result and
      leaves no update pending. */
  lemma {:induction false} StableSenderReturnsCopyResults(s: Receiver, frames: seq<Frame>)
    requires s.connected
    requires forall i | 0 <= i < |frames| :: frames[i].reply == Some(s.Info())
    ensures Frames(s, frames).results == CopyResults(frames)
    ensures Frames(s, frames).updates == Repeat(false, |frames|)
    decreases |frames|
  {
    if frames != [] {
      StableStep(s, frames[0]);
      var rest := frames[1..];
      StableSenderReturnsCopyResults(s.(update := false), rest);
      FramesCons(s, frames[0], rest);
      assert frames == [frames[0]] + rest;
    }
  }

  /** A stable sender whose triple matches the cached one: every call
      copies once, returns the copy's result, leaves no update pending and
      keeps the cached name and size. */
  lemma StableSenderCopiesEveryFrame(s: Receiver, frames: seq<Frame>)
    requires s.connected
    requires forall i | 0 <= i < |frames| :: frames[i].reply == Some(s.Info())
    ensures var t := Frames(s, frames);
      && CopyCount(t.calls) == |frames|
      && (forall i | 0 <= i < |frames| :: t.results[i] == frames[i].copyOk && !t.updates[i])
      && t.after == (if frames == [] then s else s.(update := false))
  {
    StableSenderKeepsTriple(s, frames);
    StableSenderReturnsCopyResults(s, frames);
  }

  /** One frame whose reply differs from what the receiver holds, or that
      binds it: the reply is cached and an update signalled, without a copy. */
  lemma ChangeStep(s: Receiver, f: Frame)
    requires f.reply.Some? && (!s.connected || f.reply.value != s.Info())
    ensures var o := Step(s, f);
      && o.result && o.after.update && o.after.connected
      && o.after.Info() == f.reply.value && CopyCount(o.calls) == 0
  {
  }

  /** A sender that first differs from what the receiver holds (it is not
      bound yet, or it was renamed or resized) and then stays put: the
      first call signals the update without copying, every later call
      copies, and the cached triple ends as the sender's. With copies that
      succeed, every call returns true. */
  lemma {:induction false} ChangeSignalledOnceThenCopied(s: Receiver, info: SenderInfo, frames: seq<Frame>)
    requires !s.connected || info != s.Info()
    requires |frames| > 0
    requires forall i | 0 <= i < |frames| :: frames[i].reply == Some(info) && frames[i].copyOk
    ensures var t := Frames(s, frames);
      && CopyCount(t.calls) == |frames| - 1
      && (forall i | 0 <= i < |frames| :: t.results[i] && (t.updates[i] <==> i == 0))
      && t.after.connected && t.after.Info() == info
  {
    var o := Step(s, frames[0]);
    ChangeStep(s, frames[0]);
    var rest := frames[1..];
    StableSenderCopiesEveryFrame(o.after, rest);
    FramesCons(s, frames[0], rest);
    assert frames == [frames[0]] + rest;
  }

  /** A sender whose triple changes before every call: every call signals
      an update and none copies, so no copy ever uses a stale size. */
  lemma {:induction false} ToggledSenderNeverCopies(s: Receiver, frames: seq<Frame>)
    requires s.connected
    requires forall i | 0 <= i < |frames| :: frames[i].reply.Some?
    requires |frames| > 0 ==> frames[0].reply.value != s.Info()
    requires forall i | 0 < i < |frames| :: frames[i].reply != frames[i - 1].reply
    ensures var t := Frames(s, frames);
      && CopyCount(t.calls) == 0
      && (forall i | 0 <= i < |frames| :: t.results[i] && t.updates[i])
      && t.after.connected
    decreases |frames|
  {
    if frames != [] {
      var o := Step(s, frames[0]);
      ChangeStep(s, frames[0]);
      var rest := frames[1..];
      assert forall i | 0 < i < |rest| :: rest[i].reply != rest[i - 1].reply by {
        forall i | 0 < i < |rest| ensures rest[i].reply != rest[i - 1].reply {
          assert rest[i] == frames[i + 1] && rest[i - 1] == frames[i];
        }
      }
      ToggledSenderNeverCopies(o.after, rest);
      FramesCons(s, frames[0], rest);
      assert frames == [frames[0]] + rest;
    }
  }

  /** Every operation of the receiver, with its oracle answers. */
  datatype Op =
    | SetupOp(width: U32, height: U32, invert: bool)
    | PinOp(name: Option<Name>)
    | ReceiveOp(frame: Frame)
    | CloseOp
  {
    /** The registry never reports an empty name for a sender it found. */
    predicate RepliesNamed() {
      ReceiveOp? && frame.reply.Some? ==> frame.reply.value.name != []
    }
  }

  function Apply(s: Receiver, op: Op): Receiver {
    match op
    case SetupOp(w, h, inv) => Setup(s, w, h, inv)
    case PinOp(n) => PinName(s, n)
    case ReceiveOp(f) => Step(s, f).after
    case CloseOp => Close(s).after
  }

  /** The state after a sequence of operations. */
  function Session(s: Receiver, ops: seq<Op>): Receiver
    decreases |ops|
  {
    if ops == [] then s else Session(Apply(s, ops[0]), ops[1..])
  }

  /** Once established, "tracking the active sender exactly when no name
      is pinned" survives every operation. */
  lemma {:induction false} SessionKeepsPinConsistent(s: Receiver, ops: seq<Op>)
    requires s.PinConsistent()
    ensures Session(s, ops).PinConsistent()
    decreases |ops|
  {
    if ops != [] {
      SessionKeepsPinConsistent(Apply(s, ops[0]), ops[1..]);
    }
  }

  /** `SetupReceiver` establishes the pin invariant whatever came before,
      and from then on it holds. */
  lemma SetupThenPinConsistent(s: Receiver, w: U32, h: U32, inv: bool, ops: seq<Op>)
    ensures Session(Setup(s, w, h, inv), ops).PinConsistent()
  {
    SessionKeepsPinConsistent(Setup(s, w, h, inv), ops);
  }

  /** Pinning a non-empty name on a freshly constructed receiver also
      establishes the pin invariant, without `SetupReceiver`. */
  lemma PinFromConstructed(n: Name)
    requires n != []
    ensures PinName(Constructed(), Some(n)).PinConsistent()
  {
  }

  /** Receives and closes never change the pinned name: it stays the
      fallback identity until the next setup or pin. */
  lemma {:induction false} PinnedNameSurvivesReceiveAndClose(s: Receiver, ops: seq<Op>)
    requires forall i | 0 <= i < |ops| :: ops[i].ReceiveOp? || ops[i].CloseOp?
    ensures Session(s, ops).setupName == s.setupName
    ensures Session(s, ops).useActive == s.useActive
    decreases |ops|
  {
    if ops != [] {
      PinnedNameSurvivesReceiveAndClose(Apply(s, ops[0]), ops[1..]);
    }
  }

  /** A connected receiver is bound to a non-empty name, provided the
      registry never reports an empty name for a sender it found. */
  lemma {:induction false} ConnectedMeansNamed(s: Receiver, ops: seq<Op>)
    requires s.connected ==> s.senderName != []
    requires forall i | 0 <= i < |ops| :: ops[i].RepliesNamed()
    ensures Session(s, ops).connected ==> Session(s, ops).senderName != []
    decreases |ops|
  {
    if ops != [] {
      assert ops[0].RepliesNamed();
      ConnectedMeansNamed(Apply(s, ops[0]), ops[1..]);
    }
  }

  /** `CloseReceiver` twice leaves the same state as once. */
  lemma CloseIdempotent(s: Receiver)
    ensures Close(Close(s).after).after == Close(s).after
  {
  }

  /** A pinned name is what the next open asks for; after `SetupReceiver`
      the open asks for the active sender instead. */
  lemma PinnedVersusActive(s: Receiver, n: Name, f: Frame)
    requires n != [] && !s.connected
    ensures var p := PinName(s, Some(n));
      Step(p, f).calls == [OpenBinding(n, s.width, s.height, false)]
    ensures var q := Setup(PinName(s, Some(n)), 0, 0, false);
      Step(q, f).calls == [OpenBinding([], 0, 0, true)]
  {
  }

  /** A run of frames is its first frame followed by the run of the rest. */
  lemma FramesCons(s: Receiver, f: Frame, rest: seq<Frame>)
    ensures var o := Step(s, f);
      var t := Frames(o.after, rest);
      var u := Frames(s, [f] + rest);
      && u.after == t.after
      && u.results == [o.result] + t.results
      && u.updates == [o.after.update] + t.updates
      && CopyCount(u.calls) == CopyCount(o.calls) + CopyCount(t.calls)
  {
    assert ([f] + rest)[1..] == rest;
    CopyCountAppend(Step(s, f).calls, Frames(Step(s, f).after, rest).calls);
  }

  // A sender "cam0" seen by a receiver set up with size 0x0, over eight
  // texture frames split in three runs.

  /** The receiver bound to "cam0" at the given size with no update pending. */
  function CamBound(width: U32, height: U32): Receiver {
    Receiver([], "cam0", width, height, false, true, false, true)
  }

  /** Bootstrap and steady state: the first frame binds at 1920x1080 and
      signals the update without copying; the next two copy. */
  lemma CamBootstrapScenario()
    ensures var f := CamFrame(Some(SenderInfo("cam0", 1920, 1080)));
      var t := Frames(Setup(Constructed(), 0, 0, false), [f, f, f]);
      && t.results == [true, true, true]
      && t.updates == [true, false, false]
      && CopyCount(t.calls) == 2
      && t.after == CamBound(1920, 1080)
  {
    var f := CamFrame(Some(SenderInfo("cam0", 1920, 1080)));
    var s0 := Setup(Constructed(), 0, 0, false);
    var s1 := Step(s0, f).after;
    assert s1 == CamBound(1920, 1080).(update := true);
    assert Step(s1, f).after == CamBound(1920, 1080);
    FramesCons(CamBound(1920, 1080), f, []);
    assert [f] == [f] + [];
    FramesCons(s1, f, [f]);
    assert [f, f] == [f] + [f];
    FramesCons(s0, f, [f, f]);
    assert [f, f, f] == [f] + [f, f];
  }

  /** Mid-stream resize to 1280x720: one update without a copy, then a
      copy at the new size. */
  lemma CamResizeScenario()
    ensures var f := CamFrame(Some(SenderInfo("cam0", 1280, 720)));
      var t := Frames(CamBound(1920, 1080), [f, f]);
      && t.results == [true, true]
      && t.updates == [true, false]
      && CopyCount(t.calls) == 1
      && t.after == CamBound(1280, 720)
  {
    var f := CamFrame(Some(SenderInfo("cam0", 1280, 720)));
    var s1 := Step(CamBound(1920, 1080), f).after;
    assert s1 == CamBound(1280, 720).(update := true);
    FramesCons(s1, f, []);
    assert [f] == [f] + [];
    FramesCons(CamBound(1920, 1080), f, [f]);
    assert [f, f] == [f] + [f];
  }

  /** The sender vanishes (the receiver closes and returns false), then
      reappears at 640x480: one update without a copy, then a copy. */
  lemma CamVanishReconnectScenario()
    ensures var gone := CamFrame(None);
      var back := CamFrame(Some(SenderInfo("cam0", 640, 480)));
      var t := Frames(CamBound(1280, 720), [gone, back, back]);
      && t.results == [false, true, true]
      && t.updates == [false, true, false]
      && CopyCount(t.calls) == 1
      && t.after == CamBound(640, 480)
  {
    var gone := CamFrame(None);
    var back := CamFrame(Some(SenderInfo("cam0", 640, 480)));
    var s1 := Step(CamBound(1280, 720), gone).after;
    assert s1 == Setup(Constructed(), 0, 0, false);
    var s2 := Step(s1, back).after;
    assert s2 == CamBound(640, 480).(update := true);
    FramesCons(s2, back, []);
    assert [back] == [back] + [];
    FramesCons(s1, back, [back]);
    assert [back, back] == [back] + [back];
    FramesCons(CamBound(1280, 720), gone, [back, back]);
    assert [gone, back, back] == [gone] + [back, back];
  }

  /** A texture frame of the scenario: texture 7, target GL_TEXTURE_2D, no
      host framebuffer, copies succeed. */
  function CamFrame(reply: Option<SenderInfo>): Frame {
    Frame(Texture(7, 0x0DE1), 0, reply, true)
  }
}
