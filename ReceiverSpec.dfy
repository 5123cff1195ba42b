/** The receiver state machine of `SpoutReceiver` as a value and its
    transitions as functions. `Setup` and `PinName` assign fields only and
    return the new state; `Receive` and `Close` return an `Outcome`: the new
    state, the boolean returned and the external calls made, in order.
    The registry's answer to an open or a probe and the success of a copy
    are parameters: they come from code outside the receiver. */
module ReceiverSpec {
  import opened SpoutTypes

  /** The fields of a `SpoutReceiver` that the state machine reads and writes. */
  datatype Receiver = Receiver(
    setupName: Name,    // m_SenderNameSetup: the name the user pinned, or empty
    senderName: Name,   // m_SenderName: the name currently bound or to bind to
    width: U32,         // m_Width
    height: U32,        // m_Height
    invert: bool,       // m_bInvert: flip rows when copying into pixels
    useActive: bool,    // m_bUseActive: bind to the registry's active sender
    update: bool,       // m_bUpdate: the application must resize before copying
    connected: bool)    // m_bConnected
  {
    /** The cached triple that a probe is compared against. */
    function Info(): SenderInfo {
      SenderInfo(senderName, width, height)
    }

    /** Closed: no binding, no pending update, zero size, and the bound name
        fallen back to the pinned one. */
    predicate IsClosed() {
      !connected && !update && width == 0 && height == 0 && senderName == setupName
    }

    /** Tracking the active sender exactly when no name is pinned. The
        constructor does not establish it; `SetupReceiver`, or
        `SetReceiverName` with a non-empty name, does, and every operation
        keeps it. */
    predicate PinConsistent() {
      useActive <==> setupName == []
    }
  }

  /** The result of one operation. */
  datatype Outcome = Outcome(after: Receiver, result: bool, calls: seq<Call>)

  /** The state the constructor leaves: empty names, zero size, every flag
      false, including `useActive`. */
  function Constructed(): (r: Receiver)
    ensures r.IsClosed() && r.setupName == [] && !r.invert
    ensures !r.useActive && !r.PinConsistent()
  {
    Receiver([], [], 0, 0, false, false, false, false)
  }

  /** `SetupReceiver(width, height, bInvert)`: forget any pinned name and go
      back to tracking the active sender, disconnected, with the given
      starting size and inversion policy. Nothing is called outside. */
  function Setup(s: Receiver, width: U32, height: U32, invert: bool): (r: Receiver)
    ensures !r.connected && !r.update
    ensures r.setupName == [] && r.senderName == [] && r.useActive && r.PinConsistent()
    ensures r.width == width && r.height == height && r.invert == invert
  {
    Receiver([], [], width, height, invert, true, false, false)
  }

  /** `SetReceiverName(SenderName)`: `None` stands for a null pointer. A
      non-empty name is pinned as both the setup name and the bound name,
      and active-sender tracking is switched off; a null or empty name
      leaves the receiver as it was. */
  function PinName(s: Receiver, name: Option<Name>): (r: Receiver)
    ensures name.Some? && name.value != [] ==>
      r.setupName == name.value && r.senderName == name.value && !r.useActive
    ensures name.None? || name.value == [] ==> r == s
    ensures r.width == s.width && r.height == s.height && r.invert == s.invert
    ensures r.update == s.update && r.connected == s.connected
    ensures s.PinConsistent() ==> r.PinConsistent()
  {
    match name
    case Some(n) =>
      if n != [] then s.(setupName := n, senderName := n, useActive := false) else s
    case None => s
  }

  /** `CloseReceiver()`: release the binding, fall back to the pinned name,
      zero the size and clear both flags. */
  function Close(s: Receiver): (o: Outcome)
    ensures o.after.IsClosed() && o.calls == [Release] && !o.result
    ensures o.after.setupName == s.setupName && o.after.senderName == s.setupName
    ensures o.after.invert == s.invert && o.after.useActive == s.useActive
  {
    Outcome(s.(senderName := s.setupName, width := 0, height := 0,
               update := false, connected := false),
            false, [Release])
  }

  /** The probe a receive call makes on a connected receiver:
      `ReceiveTexture` on the texture path, `ReceiveImage` on the pixel path. */
  function Probe(dst: Destination, s: Receiver): Call {
    match dst
    case Texture(_, _) => ProbeTexture(s.senderName, s.width, s.height)
    case Pixels(_) => ProbeImage(s.senderName, s.width, s.height)
  }

  /** The copy a receive call dispatches when nothing changed. The texture
      path always passes `invert = false`; the pixel path passes the
      receiver's own inversion flag. */
  function CopyFor(dst: Destination, s: Receiver, hostFbo: U32): (c: Call)
    ensures c.IsCopy()
    ensures c.CopyToTexture? <==> dst.Texture?
    ensures c.name == s.senderName && c.width == s.width && c.height == s.height
    ensures c.hostFbo == hostFbo
    ensures dst.Texture? ==> c.textureId == dst.textureId && c.textureTarget == dst.textureTarget
    ensures dst.Pixels? ==> c.glFormat == dst.glFormat
    ensures c.invert == (dst.Pixels? && s.invert)
  {
    match dst
    case Texture(id, target) =>
      CopyToTexture(s.senderName, id, target, s.width, s.height, false, hostFbo)
    case Pixels(format) =>
      CopyToPixels(s.senderName, s.width, s.height, format, s.invert, hostFbo)
  }

  /** One `ReceiveTextureData` or `ReceiveImageData` call. `reply` is what
      the registry answers to this call's open (when disconnected) or probe
      (when connected); `copyOk` is what the copy returns if one is made. */
  function Receive(s: Receiver, dst: Destination, hostFbo: U32,
                   reply: Option<SenderInfo>, copyOk: bool): (o: Outcome)
    // The pinned name and the policies are never touched by a receive.
    ensures o.after.setupName == s.setupName
    ensures o.after.invert == s.invert && o.after.useActive == s.useActive
    // Disconnected: exactly one open request, with the bound name, the
    // cached size and the active-sender policy; never a copy.
    ensures !s.connected ==>
      o.calls == [OpenBinding(s.senderName, s.width, s.height, s.useActive)]
    ensures !s.connected && reply.Some? ==>
      o.result && o.after.connected && o.after.update && o.after.Info() == reply.value
    ensures !s.connected && reply.None? ==>
      !o.result && o.after == s.(update := false)
    // Connected: the probe goes first, with the cached triple.
    ensures s.connected ==> |o.calls| >= 1 && o.calls[0] == Probe(dst, s)
    ensures s.connected && reply.None? ==>
      !o.result && o.after == Close(s).after && o.calls == [Probe(dst, s), Release]
    ensures s.connected && reply.Some? && reply.value != s.Info() ==>
      o.result && o.after == s.(senderName := reply.value.name, width := reply.value.width,
                                height := reply.value.height, update := true)
      && o.calls == [Probe(dst, s)]
    ensures s.connected && reply == Some(s.Info()) ==>
      o.result == copyOk && o.after == s.(update := false)
      && o.calls == [Probe(dst, s), CopyFor(dst, s, hostFbo)]
    // At most one copy, and only when the probe confirmed the cached triple.
    ensures CopyCount(o.calls) <= 1
    ensures CopyCount(o.calls) == 1 <==> s.connected && reply == Some(s.Info())
    // A resize signal and a copy never happen in the same call.
    ensures o.after.update ==> o.result && CopyCount(o.calls) == 0 && o.after.connected
    // Returning true without a pending update means a copy with the cached
    // name and size was dispatched.
    ensures o.result && !o.after.update ==>
      CopyCount(o.calls) == 1 && o.calls[|o.calls| - 1] == CopyFor(dst, o.after, hostFbo)
    // Returning false: either no binding (still or newly closed), or a copy
    // that failed while the receiver stayed connected with its cached triple.
    ensures !o.result ==> !o.after.update
    ensures !o.result && o.after.connected ==>
      s.connected && CopyCount(o.calls) == 1 && !copyOk && o.after.Info() == s.Info()
    ensures !o.result && !o.after.connected && s.connected ==> o.after.IsClosed()
  {
    var s0 := s.(update := false);
    if !s0.connected then
      var open := OpenBinding(s0.senderName, s0.width, s0.height, s0.useActive);
      match reply
      case Some(info) =>
        Outcome(s0.(senderName := info.name, width := info.width, height := info.height,
                    update := true, connected := true),
                true, [open])
      case None =>
        Outcome(s0, false, [open])
    else
      var probe := Probe(dst, s0);
      match reply
      case None =>
        var closed := Close(s0);
        Outcome(closed.after, false, [probe] + closed.calls)
      case Some(info) =>
        if info != s0.Info() then
          Outcome(s0.(senderName := info.name, width := info.width, height := info.height,
                      update := true),
                  true, [probe])
        else
          Outcome(s0, copyOk, [probe, CopyFor(dst, s0, hostFbo)])
  }
}
