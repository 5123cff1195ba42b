# Spout receiver state machine

A model of the receiver side of Spout, the Windows GPU texture-sharing SDK
(`SpoutReceiver`, libs/SpoutSDK/src/SpoutReceiver.cpp). A receiver binds to a
named sender, or to the registry's active sender, and is driven once per frame
by `ReceiveTextureData` or `ReceiveImageData`. Each call does one of four things:

- It opens a binding.
- It notices that the sender's name or size changed, caches the new triple and
  latches the update flag for the application to resize.
- It hands exactly one copy to the interop layer.
- It closes the receiver when the sender is gone.

The model has four files:

- `SpoutTypes.dfy` holds the shared values. `Name` is a sender name as it sits
  in a `char[256]` buffer, at most 255 characters with no NUL. On such names
  `strcmp` is sequence equality and `strcpy_s(…, 256, …)` cannot fail.
  `SenderInfo` is the (name, width, height) triple. `Call` is the log of calls
  the receiver makes to the SDK and the interop layer.
- `ReceiverSpec.dfy` holds the state machine as values. `Receiver` has the
  class's fields. `Setup`, `PinName`, `Receive` and `Close` are its
  transitions. `Setup` and `PinName` only assign fields and return the new
  state. `Receive` and `Close` return an outcome: the new state, the returned
  boolean and the external calls made.
- `SpoutReceiver.dfy` holds the class `SpoutReceiver`. It has the source's
  fields and a ghost log of external calls. Its methods update the fields step
  by step, as the C++ does. Each method is proved to match its transition in
  `ReceiverSpec`.
- `ReceiverTraces.dfy` holds runs of consecutive receive calls (`Frames`) and
  sessions that mix every operation (`Session`). The lemmas about them cover
  behaviour across call boundaries.

The SDK and the interop layer are not modelled. What they would answer is
passed in as parameters:

- the registry's reply to an open or a probe, as `Option<SenderInfo>`;
- the result of a copy, as a `bool`.

Each call to them is recorded in the log. This is how the model states "no
copy was dispatched" and "a copy was dispatched with (name, width, height,
invert)".

Three behaviours of the code are worth stating outright:

- A failed copy (lines 159 and 209) returns false and leaves the receiver
  connected, with its cached name and size. Only a failed probe
  (lines 162-166 and 212-216) closes the receiver.
- The constructor (lines 70-82) sets `m_bUseActive = false` with empty names,
  so "use-active exactly when no name is pinned" does not hold on a fresh
  receiver. `SetupReceiver` (lines 98-100) establishes it, and so does
  `SetReceiverName` with a non-empty name (lines 114-117). Every operation
  keeps it from then on.
- The receiver does not itself ensure that a connected receiver has a
  non-empty bound name: it stores whatever name the open or probe reports
  (lines 128 and 149). The name is non-empty when the registry never reports
  an empty name for a sender it found (`ConnectedMeansNamed`).

## Model

| member | source | states |
|---|---|---|
| SpoutReceiverClass.SpoutReceiver.constructor | libs/SpoutSDK/src/SpoutReceiver.cpp:70-82 | Empty names, zero size, all flags false including use-active, no external call made; the pin invariant does not hold yet |
| SpoutReceiverClass.SpoutReceiver.SetupReceiver | libs/SpoutSDK/src/SpoutReceiver.cpp:94-109 | New state is `Setup` of the old: disconnected, no update, both names empty, use-active, the given size and invert flag; no external call |
| SpoutReceiverClass.SpoutReceiver.SetReceiverName | libs/SpoutSDK/src/SpoutReceiver.cpp:112-119 | New state is `PinName` of the old: a non-empty name pins both names and clears use-active; null or empty changes nothing; no external call |
| SpoutReceiverClass.SpoutReceiver.ReceiveTextureData | libs/SpoutSDK/src/SpoutReceiver.cpp:122-172 | New state, return value and calls appended to the log are exactly those of `Receive` on the texture path |
| SpoutReceiverClass.SpoutReceiver.ReceiveImageData | libs/SpoutSDK/src/SpoutReceiver.cpp:175-222 | New state, return value and calls appended to the log are exactly those of `Receive` on the pixel path |
| SpoutReceiverClass.SpoutReceiver.IsUpdated | libs/SpoutSDK/src/SpoutReceiver.cpp:225-231 | Returns the update latch and changes nothing, so two calls between receives agree |
| SpoutReceiverClass.SpoutReceiver.IsConnected | libs/SpoutSDK/src/SpoutReceiver.cpp:234-237 | Returns the connected flag and changes nothing |
| SpoutReceiverClass.SpoutReceiver.CloseReceiver | libs/SpoutSDK/src/SpoutReceiver.cpp:240-249 | New state is `Close` of the old, and one release call is logged |
| SpoutReceiverClass.SpoutReceiver.GetSenderName | libs/SpoutSDK/src/SpoutReceiver.cpp:258-261 | Returns the bound name and changes nothing |
| SpoutReceiverClass.SpoutReceiver.GetSenderWidth | libs/SpoutSDK/src/SpoutReceiver.cpp:264-267 | Returns the cached width and changes nothing |
| SpoutReceiverClass.SpoutReceiver.GetSenderHeight | libs/SpoutSDK/src/SpoutReceiver.cpp:270-273 | Returns the cached height and changes nothing |
| SpoutReceiverClass.SpoutReceiver.CreateReceiver | libs/SpoutSDK/src/SpoutReceiver.cpp:315-318 | Logs an open request with the name, size and use-active flag passed in; on success the resolved triple comes back through the by-reference arguments |
| SpoutReceiverClass.SpoutReceiver.ReleaseReceiver | libs/SpoutSDK/src/SpoutReceiver.cpp:321-324 | Logs one release call |
| SpoutReceiverClass.SpoutReceiver.ReceiveTexture | libs/SpoutSDK/src/SpoutReceiver.cpp:327-330 | Logs a texture probe with the cached triple; on success the sender's current triple replaces it |
| SpoutReceiverClass.SpoutReceiver.ReceiveImage | libs/SpoutSDK/src/SpoutReceiver.cpp:341-350 | Logs a pixel probe with the cached triple; on success the sender's current triple replaces it |
| SpoutReceiverClass.SpoutReceiver.ReadTexture | libs/SpoutSDK/src/SpoutReceiver.cpp:159 | Logs one texture copy with the given arguments and returns the copy's result |
| SpoutReceiverClass.SpoutReceiver.ReadTexturePixels | libs/SpoutSDK/src/SpoutReceiver.cpp:209 | Logs one pixel copy with the given arguments and returns the copy's result |
| ReceiverSpec.Constructed | libs/SpoutSDK/src/SpoutReceiver.cpp:70-82 | The constructed receiver is closed, with empty names and no inversion, and it is not pin-consistent: use-active is false while no name is pinned |
| ReceiverSpec.Setup | libs/SpoutSDK/src/SpoutReceiver.cpp:94-109 | Disconnected, no update, both names empty, use-active, so the pin invariant is established; the size and invert flag are the arguments |
| ReceiverSpec.PinName | libs/SpoutSDK/src/SpoutReceiver.cpp:112-119 | A non-empty name becomes both names and clears use-active; null or empty leaves the state equal to the old one; size, flags and connection are untouched; the pin invariant is preserved |
| ReceiverSpec.Close | libs/SpoutSDK/src/SpoutReceiver.cpp:240-249 | Closed state (disconnected, no update, zero size, bound name = pinned name); the pinned name, invert and use-active are untouched; exactly one release call |
| ReceiverSpec.CopyFor | libs/SpoutSDK/src/SpoutReceiver.cpp:157-210 | The copy goes to the caller's texture id and target (line 159) or uses the caller's pixel format (line 209), with the cached name and size and the caller's host FBO; invert is false on the texture path (line 159) and the receiver's flag on the pixel path (line 209) |
| ReceiverSpec.Receive | libs/SpoutSDK/src/SpoutReceiver.cpp:122-222 | Covers each branch. Disconnected: one open request, then bound with update latched and true, or unchanged and false. Connected: probe first. A failed probe closes and returns false. A changed triple is cached with update latched, true and no copy. A matching triple makes one copy with the cached triple and returns its result. At most one copy; update and copy never both; false means no binding, or a failed copy that keeps the binding |
| ReceiverTraces.Frames | libs/SpoutSDK/src/SpoutReceiver.cpp:122-222 | A run of receive calls returns one result and one update flag per call, never changes the pinned name, invert or use-active, and copies at most once per call |
| ReceiverTraces.StableStep | libs/SpoutSDK/src/SpoutReceiver.cpp:157-160 | A connected receiver whose probe matches its cache copies once, returns the copy's result and changes nothing but the update latch |
| ReceiverTraces.StableSenderKeepsTriple | libs/SpoutSDK/src/SpoutReceiver.cpp:143-160 | Against a stable sender N calls dispatch exactly N copies and leave the cached name and size as they were |
| ReceiverTraces.StableSenderReturnsCopyResults | libs/SpoutSDK/src/SpoutReceiver.cpp:157-160 | Against a stable sender each call returns its copy's result and no call latches an update |
| ReceiverTraces.StableSenderCopiesEveryFrame | libs/SpoutSDK/src/SpoutReceiver.cpp:143-160 | The two above together: N copies, results are the copy results, no update, cached triple constant |
| ReceiverTraces.ChangeStep | libs/SpoutSDK/src/SpoutReceiver.cpp:127-156 | An open, or a probe with a different triple, caches the reply, latches update, returns true and copies nothing |
| ReceiverTraces.ChangeSignalledOnceThenCopied | libs/SpoutSDK/src/SpoutReceiver.cpp:127-160 | A new, renamed or resized sender that then stays put: update is latched on the first call only; N calls make N-1 copies, all return true, and the cache ends as the sender's triple |
| ReceiverTraces.ToggledSenderNeverCopies | libs/SpoutSDK/src/SpoutReceiver.cpp:143-156 | A sender whose triple changes before every call gets an update on every call and never a copy, so no copy uses a stale size |
| ReceiverTraces.SessionKeepsPinConsistent | libs/SpoutSDK/src/SpoutReceiver.cpp:94-119 | Once use-active matches "no pinned name", every sequence of setup, pin, receive and close keeps it so |
| ReceiverTraces.SetupThenPinConsistent | libs/SpoutSDK/src/SpoutReceiver.cpp:94-109 | After `SetupReceiver`, whatever came before, the pin invariant holds through any later operations |
| ReceiverTraces.PinFromConstructed | libs/SpoutSDK/src/SpoutReceiver.cpp:112-119 | Pinning a non-empty name on a freshly constructed receiver establishes the pin invariant without a setup |
| ReceiverTraces.PinnedNameSurvivesReceiveAndClose | libs/SpoutSDK/src/SpoutReceiver.cpp:240-249 | Any sequence of receives and closes leaves the pinned name and use-active as they were |
| ReceiverTraces.ConnectedMeansNamed | libs/SpoutSDK/src/SpoutReceiver.cpp:128-156 | If the registry never reports an empty name, a connected receiver's bound name stays non-empty through any operations |
| ReceiverTraces.CloseIdempotent | libs/SpoutSDK/src/SpoutReceiver.cpp:240-249 | Closing twice gives the same state as closing once |
| ReceiverTraces.PinnedVersusActive | libs/SpoutSDK/src/SpoutReceiver.cpp:112-128 | After pinning a name, the next open asks for that name with use-active off; after `SetupReceiver` it asks for the active sender |
| ReceiverTraces.CamBootstrapScenario | libs/SpoutSDK/src/SpoutReceiver.cpp:122-160 | Set up at 0x0, three frames from "cam0" at 1920x1080 return true, true, true; update is latched on the first frame only; 2 copies are made |
| ReceiverTraces.CamResizeScenario | libs/SpoutSDK/src/SpoutReceiver.cpp:143-160 | A resize to 1280x720 gives one update with no copy, then one copy at the new size |
| ReceiverTraces.CamVanishReconnectScenario | libs/SpoutSDK/src/SpoutReceiver.cpp:122-166 | The sender vanishes: the call returns false and the receiver closes. It returns at 640x480: one update with no copy, then one copy |

## Left out

- The GPU and shared-memory work behind `CreateReceiver`, `ReceiveTexture`, `ReceiveImage`, `ReleaseReceiver` (lines 309-330, 341-350) and behind the interop copies `ReadTexture` and `ReadTexturePixels` (lines 159 and 209). These are foreign DirectX/OpenGL calls. The model records each call and takes its answer as a parameter. The SDK class behind them is not part of this model.
- SpoutReceiverClass.SpoutReceiver.CreateReceiver: assumes that a failed open leaves the name and size passed by reference unchanged. The SDK code that could write them on failure is not part of this model.
- The pixel buffer address passed to `ReceiveImageData` and to the copy is not modelled. The copy log records the format, size, invert flag and host FBO.
- The sender record's shared handle and pixel format are not modelled. The receiver compares only (name, width, height).
- `m_TextureID` and `m_TextureTarget` are set to 0 by the constructor (lines 74-75) and not used by the modelled code, so they are left out.
- SpoutReceiverClass.SpoutReceiver.SetReceiverName: accepts only names shorter than 256 characters without NUL. A longer name would make `strcpy_s` call its constraint handler (lines 115-116), and that path is not modelled.
- The frame-counter pass-throughs `GetSenderFps`, `GetSenderFrame`, `IsFrameNew`, `DisableFrameCount` and `IsFrameCountEnabled` (lines 276-303). They forward to a subsystem that is not part of this model, and the FPS is a floating-point value.
- `OpenSpout` (lines 309-312), a one-line forward.
- The registry, share-mode, buffer-mode, DX9, adapter, max-senders, host-path and vertical-sync pass-throughs (lines 384-538). Each is a one-line wrapper over code that is not part of this model.
- `GetDX9compatible` and `SetDX9compatible` (lines 462-481). Their round trip depends on `SetDX11format`, which is not part of this model.
- `SelectSender` and `SelectSenderPanel` (lines 252-255, 366-369). They open an interactive dialog.
- `DrawSharedTexture` (lines 332-338). It is legacy OpenGL drawing with floating-point arguments.
- `RemovePadding` (lines 353-357). It only delegates, and the copying loop is not part of this model.
- `BindSharedTexture`, `UnBindSharedTexture` and `CheckReceiver` (lines 360-381). They forward to code that is not part of this model.
- The destructor (lines 85-88). It only calls `CloseReceiver`, which is modelled.
- Threads and concurrency: the receiver is used from one rendering thread, so the model is sequential.
