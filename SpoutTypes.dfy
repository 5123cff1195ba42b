/** Values exchanged between the Spout receiver and its collaborators: the
    sender registry (open and probe), the interop layer (the two copy
    primitives) and the release of a binding. */
module SpoutTypes {

  /** `unsigned int` as the receiver stores widths, heights and GL handles.
      The receiver does no arithmetic on them, so no wrap-around arises. */
  type U32 = x: int | 0 <= x < 0x1_0000_0000

  /** A sender name as it sits in one of the receiver's `char[256]` buffers:
      at most 255 characters before the terminating NUL, and no NUL inside.
      On such strings `strcmp(a, b) != 0` is exactly `a != b`, and
      `strcpy_s(dst, 256, src)` always succeeds. */
  type Name = s: seq<char> | |s| < 256 && forall i | 0 <= i < |s| :: s[i] != '\0'

  datatype Option<T> = None | Some(value: T)

  /** What the registry reports about a sender: the (name, width, height)
      triple the receiver caches and compares. */
  datatype SenderInfo = SenderInfo(name: Name, width: U32, height: U32)

  /** Where a receive call delivers the frame: an OpenGL texture
      (`ReceiveTextureData`) or a pixel buffer of the given GL format
      (`ReceiveImageData`). The buffer's address is not modelled. */
  datatype Destination =
    | Texture(textureId: U32, textureTarget: U32)
    | Pixels(glFormat: U32)

  /** One call from the receiver into code outside it, with the arguments
      that the receiver hands over. */
  datatype Call =
      /** `CreateReceiver(name, width, height, bUseActive)`: open a binding. */
    | OpenBinding(name: Name, width: U32, height: U32, useActive: bool)
      /** `ReceiveTexture(name, width, height)`, used as a probe. */
    | ProbeTexture(name: Name, width: U32, height: U32)
      /** `ReceiveImage(name, width, height, NULL)`, used as a probe. */
    | ProbeImage(name: Name, width: U32, height: U32)
      /** `interop.ReadTexture(...)`: copy the shared surface into a texture. */
    | CopyToTexture(name: Name, textureId: U32, textureTarget: U32,
                    width: U32, height: U32, invert: bool, hostFbo: U32)
      /** `interop.ReadTexturePixels(...)`: copy it into a pixel buffer. */
    | CopyToPixels(name: Name, width: U32, height: U32, glFormat: U32,
                   invert: bool, hostFbo: U32)
      /** `ReleaseReceiver()`: drop the binding. */
    | Release
  {
    /** A call that moves pixels into the application's destination. */
    predicate IsCopy() {
      CopyToTexture? || CopyToPixels?
    }
  }

  /** The number of pixel copies dispatched in a log of calls. */
  function CopyCount(calls: seq<Call>): (n: nat)
    ensures n <= |calls|
    ensures n == 0 <==> forall i | 0 <= i < |calls| :: !calls[i].IsCopy()
  {
    if calls == [] then 0
    else (if calls[0].IsCopy() then 1 else 0) + CopyCount(calls[1..])
  }

  /** Counting copies distributes over concatenation of logs. */
  lemma {:induction false} CopyCountAppend(a: seq<Call>, b: seq<Call>)
    ensures CopyCount(a + b) == CopyCount(a) + CopyCount(b)
  {
    if a == [] {
      assert a + b == b;
    } else {
      assert (a + b)[1..] == a[1..] + b;
      CopyCountAppend(a[1..], b);
    }
  }
}
