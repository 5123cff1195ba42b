/** The `SpoutReceiver` class: the source's fields, updated in place by its
    methods, each proved to do what the matching transition of
    `ReceiverSpec` says. The calls the receiver makes into the SDK and the
    interop layer are recorded in the ghost log `calls`; their answers are
    oracle parameters of the receive methods. */
module SpoutReceiverClass {
  import opened SpoutTypes
  import opened ReceiverSpec

  class SpoutReceiver {
    var senderNameSetup: Name   // m_SenderNameSetup
    var senderName: Name        // m_SenderName
    var width: U32              // m_Width
    var height: U32             // m_Height
    var invert: bool            // m_bInvert
    var useActive: bool         // m_bUseActive
    var update: bool            // m_bUpdate
    var connected: bool         // m_bConnected

    /** Every call made outside the receiver, oldest first. */
    ghost var calls: seq<Call>

    /** The abstract state that `ReceiverSpec` reasons about. */
    ghost function Model(): Receiver
      reads this
    {
      Receiver(senderNameSetup, senderName, width, height, invert, useActive, update, connected)
    }

    constructor ()
      ensures Model() == Constructed() && calls == []
    {
      senderNameSetup := [];
      senderName := [];
      invert := false;
      useActive := false;
      width := 0;
      height := 0;
      update := false;
      connected := false;
      calls := [];
    }

    method SetupReceiver(w: U32, h: U32, bInvert: bool)
      modifies this
      ensures Model() == Setup(old(Model()), w, h, bInvert)
      ensures calls == old(calls)
    {
      senderNameSetup := [];
      senderName := [];
      useActive := true;
      width := w;
      height := h;
      invert := bInvert;
      update := false;
      connected := false;
    }

    /** `name == None` stands for a null pointer. */
    method SetReceiverName(name: Option<Name>)
      modifies this
      ensures Model() == PinName(old(Model()), name)
      ensures calls == old(calls)
    {
      if name.Some? && name.value != [] {
        senderNameSetup := name.value;
        senderName := name.value;
        useActive := false;
      }
    }

    method ReceiveTextureData(textureId: U32, textureTarget: U32, hostFbo: U32,
                              reply: Option<SenderInfo>, copyOk: bool)
      returns (ok: bool)
      modifies this
      ensures var o := Receive(old(Model()), Texture(textureId, textureTarget), hostFbo, reply, copyOk);
        Model() == o.after && ok == o.result && calls == old(calls) + o.calls
    {
      update := false;
      var isConnected := IsConnected();
      if !isConnected {
        var created;
        created, senderName, width, height := CreateReceiver(senderName, width, height, useActive, reply);
        if created {
          update := true;
          connected := true;
          return true;
        }
      } else {
        // The cached triple goes to the probe, which may overwrite it.
        var name, w, h := senderName, width, height;
        var received;
        received, name, w, h := ReceiveTexture(name, w, h, reply);
        if received {
          if w != width || h != height || name != senderName {
            senderName := name;
            width := w;
            height := h;
            update := true;
            return true;
          } else {
            ok := ReadTexture(senderName, textureId, textureTarget, width, height, false, hostFbo, copyOk);
            return ok;
          }
        } else {
          CloseReceiver();
          return false;
        }
      }
      return false;
    }

    method ReceiveImageData(glFormat: U32, hostFbo: U32,
                            reply: Option<SenderInfo>, copyOk: bool)
      returns (ok: bool)
      modifies this
      ensures var o := Receive(old(Model()), Pixels(glFormat), hostFbo, reply, copyOk);
        Model() == o.after && ok == o.result && calls == old(calls) + o.calls
    {
      update := false;
      var isConnected := IsConnected();
      if !isConnected {
        var created;
        created, senderName, width, height := CreateReceiver(senderName, width, height, useActive, reply);
        if created {
          update := true;
          connected := true;
          return true;
        }
      } else {
        var name, w, h := senderName, width, height;
        var received;
        received, name, w, h := ReceiveImage(name, w, h, reply);
        if received {
          if w != width || h != height || senderName != name {
            senderName := name;
            width := w;
            height := h;
            update := true;
            return true;
          } else {
            // The copy takes the probe's (equal) size and the receiver's inversion flag.
            ok := ReadTexturePixels(senderName, w, h, glFormat, invert, hostFbo, copyOk);
            return ok;
          }
        } else {
          CloseReceiver();
          return false;
        }
      }
      return false;
    }

    /** The latched update flag; reading it does not clear it. */
    method IsUpdated() returns (u: bool)
      ensures u == update
    {
      return update;
    }

    method IsConnected() returns (c: bool)
      ensures c == connected
    {
      return connected;
    }

    method CloseReceiver()
      modifies this
      ensures Model() == Close(old(Model())).after
      ensures calls == old(calls) + Close(old(Model())).calls
    {
      ReleaseReceiver();
      senderName := senderNameSetup;
      width := 0;
      height := 0;
      update := false;
      connected := false;
    }

    method GetSenderName() returns (name: Name)
      ensures name == senderName
    {
      return senderName;
    }

    method GetSenderWidth() returns (w: U32)
      ensures w == width
    {
      return width;
    }

    method GetSenderHeight() returns (h: U32)
      ensures h == height
    {
      return height;
    }

    // The SDK calls. Each records itself in `calls` and answers with the
    // oracle it is given; by-reference arguments come back as results.

    /** Opens a binding. On success the resolved name and size are written
        back; on failure the arguments come back unchanged. */
    method CreateReceiver(name: Name, w: U32, h: U32, bUseActive: bool, reply: Option<SenderInfo>)
      returns (ok: bool, name': Name, w': U32, h': U32)
      modifies this`calls
      ensures calls == old(calls) + [OpenBinding(name, w, h, bUseActive)]
      ensures ok == reply.Some?
      ensures ok ==> SenderInfo(name', w', h') == reply.value
      ensures !ok ==> name' == name && w' == w && h' == h
    {
      calls := calls + [OpenBinding(name, w, h, bUseActive)];
      match reply
      case Some(info) => return true, info.name, info.width, info.height;
      case None => return false, name, w, h;
    }

    method ReleaseReceiver()
      modifies this`calls
      ensures calls == old(calls) + [Release]
    {
      calls := calls + [Release];
    }

    /** Probes the sender on the texture path; on success the sender's
        current triple comes back in place of the one passed in. */
    method ReceiveTexture(name: Name, w: U32, h: U32, reply: Option<SenderInfo>)
      returns (ok: bool, name': Name, w': U32, h': U32)
      modifies this`calls
      ensures calls == old(calls) + [ProbeTexture(name, w, h)]
      ensures ok == reply.Some?
      ensures ok ==> SenderInfo(name', w', h') == reply.value
      ensures !ok ==> name' == name && w' == w && h' == h
    {
      calls := calls + [ProbeTexture(name, w, h)];
      match reply
      case Some(info) => return true, info.name, info.width, info.height;
      case None => return false, name, w, h;
    }

    /** Probes the sender on the pixel path (no pixel buffer is passed). */
    method ReceiveImage(name: Name, w: U32, h: U32, reply: Option<SenderInfo>)
      returns (ok: bool, name': Name, w': U32, h': U32)
      modifies this`calls
      ensures calls == old(calls) + [ProbeImage(name, w, h)]
      ensures ok == reply.Some?
      ensures ok ==> SenderInfo(name', w', h') == reply.value
      ensures !ok ==> name' == name && w' == w && h' == h
    {
      calls := calls + [ProbeImage(name, w, h)];
      match reply
      case Some(info) => return true, info.name, info.width, info.height;
      case None => return false, name, w, h;
    }

    /** Stands for `interop.ReadTexture`: the copy into a texture. */
    method ReadTexture(name: Name, textureId: U32, textureTarget: U32, w: U32, h: U32,
                       bInvert: bool, hostFbo: U32, copyOk: bool)
      returns (ok: bool)
      modifies this`calls
      ensures calls == old(calls) + [CopyToTexture(name, textureId, textureTarget, w, h, bInvert, hostFbo)]
      ensures ok == copyOk
    {
      calls := calls + [CopyToTexture(name, textureId, textureTarget, w, h, bInvert, hostFbo)];
      return copyOk;
    }

    /** Stands for `interop.ReadTexturePixels`: the copy into a pixel buffer. */
    method ReadTexturePixels(name: Name, w: U32, h: U32, glFormat: U32,
                             bInvert: bool, hostFbo: U32, copyOk: bool)
      returns (ok: bool)
      modifies this`calls
      ensures calls == old(calls) + [CopyToPixels(name, w, h, glFormat, bInvert, hostFbo)]
      ensures ok == copyOk
    {
      calls := calls + [CopyToPixels(name, w, h, glFormat, bInvert, hostFbo)];
      return copyOk;
    }
  }
}
