# krayons display core, modelled in Dafny

This project models the display path of krayons. krayons is a small Go program that draws onto a Linux DRM/KMS display without a window system. The model covers five pieces:

- **Command words** (`Ioctl`). `NewCmd` packs a direction, a payload size, the subsystem magic byte `'d'` and an opcode into one 32-bit ioctl request number.
- **Event header** (`DrmEvent`). `ReadEvent` takes the outcome of one read of the device and returns the read error, `ErrNotEnough`, or the little-endian 8-byte header at the start of the buffer.
- **Mode-setting records and requests** (`DrmMode`, `DrmCard`):
  - the NUL-terminated mode name;
  - the CRTC record that `GetCrtc` reads back and the one `SetCrtc` builds;
  - the `IOCTLMode*` command constants;
  - the requests a `Card` issues, including the two-phase discovery of resources and connectors. The first call learns the counts. The program then allocates arrays of those sizes. The second call has the kernel fill them.
- **Output selection and the framebuffer lifecycle** (`Modesetting`):
  - `setup` keeps the first connector that is connected, has a mode and names an encoder;
  - `CreateFB`, `DestroyFB` and `WaitFlip` are fixed request sequences that stop at the first error.
- **The double-buffered surface** (`Surfaces`):
  - `Surface.FB()` is the back buffer, the one not on screen;
  - `Set`, `Clear` and `Rect` write into the back buffer's mapped memory in place;
  - `Swap` flips to the back buffer and toggles the front index;
  - `Close` tears both framebuffers down.

**The kernel is an oracle.** A `Card` records every operation it hands over in `trace`: ioctls with their payload records, `mmap`, `munmap` and `read`. The operation at trace position `k` fails with `errno(k)` when that is non-zero. Otherwise its answer is the `Kernel` datatype's entry for `k`. Every answer is indexed by call number, so the answers can change between two calls; that covers hot-plug between the two discovery calls.

**How the methods are specified.** Each state-changing method is proved against a pure function of the kernel and the starting trace position, for example `FetchConnector`, `SetupSpec`, `CreateFBSpec`, `Sequence`, `WaitFlipSpec` or `NewSurfaceSpec`. That function gives the method's result and the exact operations it issues. What the source promises is then proved as lemmas about those functions.

**The pixel store.** `Rect` is specified by the byte-sequence functions `RowPainted` and `RowsPainted`. Lemmas show that every pixel of the rectangle ends up holding the packed colour and that no other byte changes.

Modules follow the source files:

| module | file | source |
|---|---|---|
| `Base` | base.dfy | machine integers, errors, little-endian bytes |
| `Ioctl` | ioctl.dfy | drm/ioctl/ioctl.go |
| `DrmEvent` | event.dfy | drm/event.go |
| `DrmMode` | drm_mode.dfy | drm/mode.go: records, names, CRTC mapping, constants |
| `DrmCard` | drm_card.dfy | drm/drm.go `Card`, drm/mode.go requests, drm/event.go `Card.ReadEvent`, drm/mmap/mmap.go |
| `Modesetting` | modesetting.dfy | mode.go |
| `Surfaces` | surfaces.dfy | surface.go |

## Model

| member | source | states |
|---|---|---|
| Base.Int64 | mode.go:110 | Go's `int64(x)` of a uint64 lands in the signed 64-bit range and is congruent to `x` modulo 2^64, i.e. it wraps |
| Base.Copy | surface.go:60 | Go's copy: the first min(len(dst), len(src)) elements come from src and the rest of dst is kept; also how the kernel fills the discovery arrays (drm/mode.go) |
| Base.LeUint32OfLeBytes | drm/event.go:44-47 | decoding the four little-endian bytes of `x` gives `x` back |
| Base.LeBytesOfLeUint32 | drm/event.go:44-47 | encoding the little-endian value of four bytes gives those bytes back |
| Ioctl.NewCmd | drm/ioctl/ioctl.go:14-30 | panics exactly when `typ > Write\|Read` or `sz > 2<<14` (32768); the direction is checked first, so an invalid direction reports InvalidDirection even with an oversized size |
| Ioctl.NewCmdLowFields | drm/ioctl/ioctl.go:24-27 | every accepted input (`sz <= 32768`) yields a word whose bits 15..8 are `uniq` and bits 7..0 are `fn` |
| Ioctl.NewCmdHighFields | drm/ioctl/ioctl.go:24-25 | for `sz < 2^14`: `cmd>>30 == typ` and `(cmd>>16)&0x3FFF == sz` |
| Ioctl.NewCmdRoundTrip | drm/ioctl/ioctl.go:24-27 | for `sz < 2^14` the decoders Dir, Size, Magic and Opcode recover all four inputs exactly |
| Ioctl.NewCmdInjective | drm/ioctl/ioctl.go:24-27 | valid inputs with `sz < 2^14` that encode to the same word are equal in every field |
| Ioctl.NewCmdZeroIsOpcode | drm/ioctl/ioctl.go:14-29 | `NewCmd(None, 0, 0, fn)` is the word `fn` |
| Ioctl.OversizeCorruptsDirection | drm/ioctl/ioctl.go:20-25 | as written, size 0x4000 is accepted and carries into the direction bits: `NewCmd(None, 0x4000, 0, 0) == NewCmd(Write, 0, 0, 0)` |
| Ioctl.NewCmdChecked | drm/ioctl/ioctl.go:14-30 | the encoder with the size bound the 14-bit field needs: it panics exactly when `typ > 3` or `sz >= 2^14`; it agrees with NewCmd wherever it accepts; all four fields decode back |
| Ioctl.NewCmdCheckedInjective | drm/ioctl/ioctl.go:14-30 | the corrected encoder is injective on everything it accepts |
| DrmEvent.EncodeHeader | drm/event.go:21-24 | the header occupies 8 bytes on the wire |
| DrmEvent.DecodeHeader | drm/event.go:44-47 | re-encoding the decoded header reproduces the first 8 bytes exactly |
| DrmEvent.ReadEvent | drm/event.go:26-50 | a read error is returned verbatim; a read of 0 bytes or of fewer than 8 is ErrNotEnough; success holds exactly when at least 8 bytes were read, whatever their values, and the header is the little-endian decode of bytes 0..7 |
| DrmEvent.DecodeEncodeHeader | drm/event.go:44-47 | decoding an encoded header yields it back, whatever bytes follow |
| DrmEvent.ReadEventOfEncoded | drm/event.go:39-49 | a read of n >= 8 bytes that starts with an encoded header yields exactly that header, for every type and length value |
| DrmEvent.ReadEventReadsOnlyFilled | drm/event.go:28-44 | two buffers that agree on their first n bytes give the same result: only the bytes the read filled are decoded |
| DrmMode.IndexByte | drm/mode.go:21 | bytes.IndexByte: -1 exactly when the byte is absent, otherwise the position of its first occurrence |
| DrmMode.NameString | drm/mode.go:20-22 | sysName.String, given a name that holds a NUL: the prefix before the first NUL, which holds no NUL itself |
| DrmMode.CrtcFromSys | drm/mode.go:340-351 | Width is the mode's Hdisplay and Height its Vdisplay; ID, BufferID, X, Y, GammaSize, ModeValid and Mode are copied unchanged |
| DrmMode.CrtcFromSysForgetsOnlyConnectors | drm/mode.go:340-351 | two kernel records give the same Crtc exactly when they agree outside the connector pointer and count |
| DrmMode.Uint32Of | drm/mode.go:364 | Go's `uint32(count)` wraps modulo 2^32 and keeps counts in range |
| DrmMode.SetCrtcRecord | drm/mode.go:355-369 | id, fb, position and connector pointer are set as given; `countConnectors == uint32(count)`; `modeValid == 1` and the mode is copied exactly when a mode is supplied, otherwise `modeValid == 0` and the mode is zero |
| DrmMode.SetCrtcThenGetCrtc | drm/mode.go:333-369 | reading back the record SetCrtc builds gives its id, fb, position and mode, marked valid, with the mode's display size |
| DrmMode.ModeCommandOf | drm/mode.go:171-204 | every read-write display command with a size below 2^14 decodes to its direction, size, magic `'d'` and opcode, and the corrected encoder builds the same word |
| DrmMode.ModeCommandsLayout | drm/mode.go:171-204 | each IOCTLMode* constant is read-write, magic `'d'`, its listed opcode (0xA0, 0xA1, 0xA2, 0xA6, 0xA7, 0xAE, 0xAF, 0xB2, 0xB3, 0xB4, 0xB0) and its payload size, e.g. 4 for RmFB; likewise IOCTLGetCap (drm/cap.go) with opcode 0x0C and size 16 |
| DrmCard.StatusAt | drm/ioctl/ioctl.go:32-38 | a call succeeds exactly when its errno is 0, and otherwise fails with that errno |
| DrmCard.Filled | drm/mode.go:213-228 | `make([]T, n)`: n zero values |
| DrmCard.PtrTo | drm/mode.go:213-228 | a pointer field is set to the array exactly when the array is non-empty, and is nil otherwise |
| DrmCard.FetchResources | drm/mode.go:206-236 | the first request carries an all-zero record; one request if it fails, two otherwise; success exactly when both succeed; each error is the failing call's errno |
| DrmCard.FetchResourcesSecondRequest | drm/mode.go:213-230 | the second request carries the first answer's counts, and each pointer addresses exactly count slots, nil when the count is 0 |
| DrmCard.FetchResourcesSizes | drm/mode.go:213-236 | each of Fbs, Crtcs, Encoders and Connectors has the length the first answer counted and holds what the kernel wrote on the second call |
| DrmCard.ModeSlots | drm/mode.go:259-261 | the mode slot count is at least one and at least countModes, and equals a non-zero countModes |
| DrmCard.FetchConnector | drm/mode.go:238-272 | the requested id is in the first request's record; success exactly when both requests succeed; the result holds at least one mode slot |
| DrmCard.FetchConnectorSecondRequest | drm/mode.go:246-266 | the second request carries the first counts with countModes raised from 0 to 1, storage of max(countModes, 1) modes, countProps props and prop values, and countEncoders encoders |
| DrmCard.FetchConnectorSizes | drm/mode.go:246-272 | the connector's Modes has length max(countModes, 1), Props and PropValues length countProps, Encoders length countEncoders, each filled by the second call |
| DrmCard.FetchEncoder | drm/mode.go:274-285 | one request carrying the id; the result is the kernel's record or the errno |
| DrmCard.ReadAt | drm/event.go:28-33 | the read either fails with its errno or fills the first n bytes of the 1024-byte buffer, with n at most 1024, and leaves the rest zero |
| DrmCard.ReadEventAt | drm/event.go:26-50 | Card.ReadEvent fails with the read's errno, or with ErrNotEnough for fewer than 8 bytes, and passes exactly when at least 8 bytes arrived |
| DrmCard.Card.Call | drm/drm.go:33-35 | appends the operation to the trace and returns the kernel's errno for that position |
| DrmCard.Card.GetResources | drm/mode.go:206-236 | result and issued requests are those of FetchResources |
| DrmCard.Card.GetConnector | drm/mode.go:238-272 | result and issued requests are those of FetchConnector |
| DrmCard.Card.GetEncoder | drm/mode.go:274-285 | result and issued request are those of FetchEncoder |
| DrmCard.Card.CreateDumb | drm/mode.go:287-298 | one request with width, height and bpp set and everything else zero; the kernel's record or the errno |
| DrmCard.Card.AddFB | drm/mode.go:300-313 | one request with width, height, pitch, bpp, depth and handle as given; the kernel's fb id or the errno |
| DrmCard.Card.RmFB | drm/mode.go:315-317 | one request carrying the buffer id; the call's outcome |
| DrmCard.Card.MapDumb | drm/mode.go:319-327 | one request carrying the handle; the kernel's mapping offset or the errno |
| DrmCard.Card.DestroyDumb | drm/mode.go:329-331 | one request carrying the handle; the call's outcome |
| DrmCard.Card.GetCrtc | drm/mode.go:333-353 | one request carrying the id; the mapping CrtcFromSys of the kernel's record, or the errno |
| DrmCard.Card.SetCrtc | drm/mode.go:355-370 | one request carrying SetCrtcRecord of the arguments; the call's outcome |
| DrmCard.Card.ModePageFlip | drm/mode.go:372-379 | one request carrying crtc, fb and flags; the call's outcome |
| DrmCard.Card.ReadEvent | drm/event.go:26-50 | one read of 1024 bytes; the outcome is ReadEventAt |
| DrmCard.Card.Map | drm/mmap/mmap.go:8-10 | a non-positive length fails with EINVAL before any call; otherwise one mmap, which fails with its errno or yields fresh memory of exactly that length |
| DrmCard.Card.Unmap | drm/mmap/mmap.go:12-14 | one munmap of the region; the call's outcome |
| Modesetting.Usable | mode.go:56-70 | the connector filter: connected, at least one mode, a non-zero encoder id; a connector that passes has a `Modes[0]` and an encoder to request |
| Modesetting.ConnectorAt | mode.go:50-54 | the connector fetched for `ids[t]` after t passed-over connectors, two requests each; when it succeeds it has at least one mode slot, and it fails only with an operating-system errno |
| Modesetting.VisitAt | mode.go:50-81 | one iteration of the connector loop: it aborts only with an operating-system errno, and it chooses only a fetched connector that passes the filter, selecting that connector's ID and its `Modes[0]` |
| Modesetting.VisitOps | mode.go:51-73 | one iteration's requests begin with the connector's requests and are at most three: two for the connector, one for its encoder |
| Modesetting.ScanResult | mode.go:50-84 | the loop's result: a selection is always the choice of some visit, and an error other than "no matching mode found" is always the abort of some visit |
| Modesetting.ScanOps | mode.go:50-84 | the loop's requests begin with those of the first remaining visit |
| Modesetting.SetupSpec | mode.go:44-85 | setup's requests begin with the resources requests; it succeeds only if the resources request did; its every error is an operating-system errno or "no matching mode found" |
| Modesetting.ScanOk | mode.go:50-82 | a successful connector loop chose at the first visit that was not skipped |
| Modesetting.ScanPicksFirst | mode.go:50-82 | the first visit that chooses, after only skipped ones, decides the loop's selection |
| Modesetting.ScanNoMatch | mode.go:50-84 | the loop ends with "no matching mode found" exactly when every connector was skipped |
| Modesetting.ScanAborts | mode.go:50-75 | a failed connector or encoder request aborts the loop with its error, even if later connectors would match |
| Modesetting.ScanStopsAt | mode.go:50-82 | two loops that agree up to the visit where the loop stops give the same result and the same requests |
| Modesetting.VisitsAgree | mode.go:50-82 | a connector's visit depends only on the connector ids up to it |
| Modesetting.SetupIgnoresLater | mode.go:50-82 | connectors after the one where the loop stops are never requested: replacing them changes neither the selection nor the requests |
| Modesetting.FetchedConnectorUsable | mode.go:61-64 | since a fetched connector always has a mode slot, the filter decides on the connection state and the encoder id alone |
| Modesetting.VisitSkip | mode.go:56-70 | a connector is skipped exactly when it was fetched and fails the connected / has-modes / has-encoder filter |
| Modesetting.VisitChoose | mode.go:56-81 | a connector's visit chooses sel exactly when it passes the filter, its encoder is fetched, and sel is its id, the encoder's CrtcID and its Modes[0] |
| Modesetting.SkippedPassedOver | mode.go:56-70 | the loop skipped connectors 0..j-1 exactly when each of them was fetched and failed the filter |
| Modesetting.ScanSelectsFirstUsable | mode.go:50-82 | a successful connector loop selected the first connector that passes the filter and whose encoder is fetched |
| Modesetting.ScanPicksFirstUsable | mode.go:50-82 | conversely, that first connector decides the loop's selection |
| Modesetting.SetupSelectsFirstUsable | mode.go:44-85 | after a successful resources request, setup succeeds with sel exactly when some listed connector passes the filter with its encoder fetched, every connector before it was fetched and failed the filter, and sel is its ID, its encoder's CrtcID and its Modes[0] |
| Modesetting.SetupNoMatch | mode.go:44-85 | after a successful resources request, setup returns "no matching mode found" exactly when every listed connector was fetched and failed the filter |
| Modesetting.CreateFBPlan | mode.go:88-117 | the five requests CreateFB issues when none fails |
| Modesetting.CreateFBSpec | mode.go:87-127 | CreateFB issues a prefix of CreateDumb(Hdisplay, Vdisplay, 32), AddFB(Hdisplay, Vdisplay, 24, 32, pitch, handle), MapDumb(handle), Map(offset, Size) and SetCrtc(Crtc, fbID, 0, 0, [Conn], 1, Mode); every step before the last issued succeeded; the error is the last step's errno, or EINVAL from a non-positive mapping length; on success the result has the AddFB id, the mode's size, Stride == Pitch and the dumb handle |
| Modesetting.Sequence | mode.go:129-143 | a request list run up to its first failure: the issued requests are a prefix, all but the last succeeded, and the outcome is the last one's errno, or Pass exactly when all succeeded |
| Modesetting.SequenceAppend | surface.go:40-48 | running two lists one after the other is running their concatenation; the second starts only if the first passes |
| Modesetting.DestroyFBPlan | mode.go:129-143 | DestroyFB's teardown is three requests: Unmap, RmFB(ID), DestroyDumb(handle) |
| Modesetting.WaitFlipSpec | mode.go:145-153 | exactly one page flip with flags 0x01 on the CRTC, then exactly one event read only if the flip succeeded; the flip's error, or the read's outcome |
| Modesetting.Modeset.constructor | mode.go:35-37 | a Modeset over the card with no mode, connector or CRTC yet |
| Modesetting.Modeset.Setup | mode.go:44-85 | issues SetupSpec's requests; on success Mode, Conn and Crtc are set to the selection; on failure they are unchanged and the error is returned |
| Modesetting.Modeset.SelectConnector | mode.go:50-84 | the connector loop's result and requests are those of the visit sequence |
| Modesetting.Modeset.CreateFB | mode.go:87-127 | issues CreateFBSpec's requests and returns its error or a framebuffer over fresh memory that matches the spec's record |
| Modesetting.Modeset.DestroyFB | mode.go:129-143 | runs DestroyFBPlan with Sequence: unmap, remove the framebuffer and destroy the dumb buffer, stopping at the first error |
| Modesetting.Modeset.WaitFlip | mode.go:145-153 | requests and outcome are WaitFlipSpec's |
| Modesetting.NewModeset | mode.go:30-42 | a fresh Modeset over the card that went through setup; setup's error is returned |
| Surfaces.Xor1 | surface.go:51 | `x ^ 1` flips the lowest bit and keeps the rest |
| Surfaces.Xor1Involutive | surface.go:80 | toggling twice restores the index, so two successful swaps restore the original front buffer |
| Surfaces.CopyWholeFrame | surface.go:54-56 | a source at least as long as the destination replaces it entirely |
| Surfaces.PackChannels | surface.go:64-65 | with 8-bit channels the pixel word's bytes, low to high, are blue, green, red and zero |
| Surfaces.Pack | surface.go:64-65 | `(r<<16)\|(g<<8)\|b` in uint32: the low byte is always blue's low byte, and 8-bit channels leave the top byte zero |
| Surfaces.PackSixteenBitGreen | surface.go:64-65 | with the 16-bit channels RGBA() returns, the shifts overlap: full green packs to the same word as 8-bit yellow |
| Surfaces.Offset | surface.go:70 | `int(Stride)*y + x*4`: non-negative for non-negative stride and coordinates, and never before the start of row y for x >= 0 |
| Surfaces.Store | surface.go:70-71 | the 32-bit store writes the little-endian bytes of the value at the offset and keeps every other byte |
| Surfaces.RowPainted | surface.go:69-72 | painting a row keeps the buffer's length |
| Surfaces.RowsPainted | surface.go:68-73 | painting the rectangle's rows keeps the buffer's length |
| Surfaces.RowPaintedOutside | surface.go:69-72 | a byte outside every pixel cell of the row is unchanged |
| Surfaces.RowsPaintedOutside | surface.go:68-73 | Rect touches nothing else: a byte outside every pixel cell of the rectangle is unchanged |
| Surfaces.EmptyRectWritesNothing | surface.go:68-73 | an empty rectangle writes nothing |
| Surfaces.OffsetAligned | surface.go:70 | with a stride that is a multiple of 4, every pixel offset is a multiple of 4 |
| Surfaces.StoreKeeps | surface.go:71 | storing v at another aligned offset keeps a cell that already holds v |
| Surfaces.RowPaintedKeeps | surface.go:69-72 | painting a row keeps every aligned cell that already holds v |
| Surfaces.RowPaintedCovers | surface.go:69-72 | after a row is painted with an aligned stride, every pixel of it holds v |
| Surfaces.RowsPaintedKeeps | surface.go:68-73 | painting rows keeps every aligned cell that already holds v |
| Surfaces.RowsPaintedKeepRow | surface.go:68-73 | painting rows keeps a row whose every pixel already holds v |
| Surfaces.RowsPaintedCovers | surface.go:68-73 | after Rect with an aligned stride, every pixel `Stride*y + 4*x` of the rectangle holds `val` |
| Surfaces.ReadBack | surface.go:71 | a 32-bit read of a cell that holds v returns v |
| Surfaces.PaintRect | surface.go:68-73 | the outer loop leaves the array equal to RowsPainted of its old contents |
| Surfaces.PaintRow | surface.go:69-72 | the inner loop leaves the array equal to RowPainted of its old contents |
| Surfaces.FramebufferPair | surface.go:21-31 | the first CreateFB's requests come first, and its error ends construction; on success there are 10 requests and two framebuffers of the mode's size |
| Surfaces.NewSurfaceSpec | surface.go:15-38 | setup's requests come first, and its error is returned unchanged; on success the selection is setup's and there are two framebuffers |
| Surfaces.NewSurfaceSpecAfterSetup | surface.go:21-31 | after a successful setup, NewSurface's requests and result are those of the framebuffer pair that follows |
| Surfaces.Surface.constructor | surface.go:33-37 | given two framebuffers over different memory, a valid surface over the modeset and those framebuffers with `frontbuffer == 1` |
| Surfaces.Surface.Valid | surface.go:9-13 | two framebuffers over different memory and a front index in {0, 1}; then the back index `frontbuffer ^ 1` is in range and differs from the front index |
| Surfaces.Surface.Front | surface.go:76-82 | the framebuffer on screen, `fbs[frontbuffer]`: one of the two, over other memory than the back buffer |
| Surfaces.Surface.FB | surface.go:50-52 | the back buffer is `fbs[1 - frontbuffer]`, never the one on screen |
| Surfaces.Surface.Set | surface.go:58-61 | the back buffer becomes Copy(old back buffer, buf); the front buffer is unchanged |
| Surfaces.Surface.Clear | surface.go:54-56 | every byte of the back buffer is zero afterwards; the front buffer is unchanged; the colour is ignored |
| Surfaces.Surface.Rect | surface.go:63-74 | the back buffer becomes RowsPainted of its old contents with `val = (r<<16)\|(g<<8)\|b`; the front buffer is unchanged |
| Surfaces.Surface.Swap | surface.go:76-82 | issues WaitFlip for the back buffer's id; on success the index toggles, so the old front becomes FB() and the old back is on screen; on failure the index is unchanged |
| Surfaces.Surface.Close | surface.go:40-48 | DestroyFB of fbs[0], then of fbs[1], stopping at the first error |
| Surfaces.NewSurface | surface.go:15-38 | issues NewSurfaceSpec's requests; on success: a fresh valid surface with `frontbuffer == 1`, so FB() is fbs[0]; the modeset's selection is setup's; both framebuffers match the spec's records |
| Surfaces.CreateBuffers | surface.go:21-31 | two CreateFB calls in order, the second only after the first succeeded; on success two framebuffers over fresh, distinct memory |

## Left out

- Opening and closing the device file (`OpenCard`, `Card.Close` in drm/drm.go) and `NewModeset`'s `OpenCard` call are operating-system plumbing. `NewModeset` and `NewSurface` take an opened `Card` instead of a minor number.
- `ioctl.Call`, `syscall.Read`, `syscall.Mmap` and `syscall.Munmap` are external. Each is one operation in the card's trace, answered by the `Kernel` oracle.
- `GetCap` (drm/cap.go) is a one-request wrapper. Only its command constant is modelled, in `DrmMode.ModeCommandsLayout`.
- Payload sizes are constants taken from the kernel's 64-bit binary interface, not derived from Go struct layout (`unsafe.Sizeof`).
- Pointer fields are modelled by the storage they address, not by addresses. The `PropValues` pointer at drm/mode.go:251 takes the address of the slice header, not of its first element. This model treats it as pointing at the array.
- The hot-plug race between the two discovery requests (drm/mode.go:234, 270) is not handled by the source, and the model does not fix it. The oracle may answer the second request with different counts; the arrays keep the first request's sizes.
- `ReadEvent`: the read blocks without a timeout; only its outcome is modelled. The `binary.Read` error branch at drm/event.go:45-47 cannot be taken once 8 bytes are present, so it is not modelled.
- `color.Color.RGBA()` is external. Its four results are the fields of `Color`, taken as Go uint32 values.
- Surfaces.Rect: the unaligned 32-bit store is modelled as writing the 4-byte little-endian encoding of `val`, which assumes a little-endian host. Go checks the index of `&fb.Buffer[offset]` and panics unless `0 <= offset < len(Buffer)`; that panic is not modelled. The three following bytes, written through `unsafe.Pointer`, are not checked at all. The model requires (`Fits`) that all four bytes of every pixel lie inside the buffer, which excludes both the panic and a store past the slice's end.
- Surfaces.RowsPaintedCovers: the lemma requires a stride that is a multiple of 4. With another stride the 4-byte cells of neighbouring rows can overlap, and a later row can overwrite part of an earlier one. `RowsPaintedOutside` needs no such assumption.
- The `int` arithmetic of `Stride*y + x*4` is unbounded in the model. Go's 64-bit `int` overflow is not modelled; it needs buffers far beyond addressable memory.
- `log.Printf` output in `setup` is not modelled.
- DrmMode.NameString: requires that the name holds a NUL. When it holds none, `bytes.IndexByte` returns -1 and `n[:-1]` at drm/mode.go:21 panics with an index out of range; that panic is not modelled.
- Modesetting.Modeset.CreateFB: requires that a mode is selected (`mode.Some?`). Called before `setup` succeeded, `m.Mode.Hdisplay` at mode.go:88 dereferences a nil `Mode` and panics; that panic is not modelled.
- Modesetting.Modeset.SelectConnector, Surfaces.PaintRect, Surfaces.PaintRow and Surfaces.CreateBuffers are the loops and call pairs of `setup`, `Rect` and `NewSurface`, split into their own methods. `Setup` assigns `Mode`, `Conn` and `Crtc` from the selection the loop returns, not inside the loop.
- Modesetting.Modeset.CreateFB returns a framebuffer whose `Buffer` is fresh memory of the mapped length. The addresses of the mapping and the kernel's dumb buffer are not related.
- The size bound of `NewCmd` follows the code (`sz > 2<<14`, i.e. 32768 passes) rather than the 14-bit field the code comment describes; see Findings.
- The colour packing uses 8-bit shifts on RGBA()'s 16-bit channels, as written; `Surfaces.PackSixteenBitGreen` documents the overlap. The intended 8-bit packing is not known, so no corrected packing is proposed.

## Findings

| source | as written | input that shows it | evidently intended | confidence | as-written member | corrected member |
|---|---|---|---|---|---|---|
| drm/ioctl/ioctl.go:20-25 | the size guard `sz > 2<<14` accepts sizes up to 32768, but the size field has 14 bits, so sizes 0x4000..0x8000 carry into the direction bits | `NewCmd(None, 0x4000, 0, 0)` gives 0x4000_0000, the word of `NewCmd(Write, 0, 0, 0)` | panic for `sz >= 1<<14`, so that every accepted word decodes back to its inputs | not executed | Ioctl.OversizeCorruptsDirection | Ioctl.NewCmdChecked |
