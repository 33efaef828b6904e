/**
 * The kernel-shaped records of the mode-setting interface, the command
 * words that name its requests, and the pure parts of drm/mode.go: the
 * NUL-terminated name, the CRTC record read back by GetCrtc and the one
 * SetCrtc builds.
 *
 * Each discovery record is split into the pointer fields, which only the
 * program writes, and an `info` part, which the kernel writes. A pointer
 * field is modelled by the storage it addresses (`To(storage)`) instead of
 * an address.
 */
module DrmMode {
  import opened Base
  import Ioctl

  const NameLen: nat := 32

  /** Connection states. */
  const Connected: uint32 := 1
  const Disconnected: uint32 := 2
  const UnknownConnection: uint32 := 3

  /** A pointer field: nil, or the storage it addresses. */
  datatype Ptr<T> = Nil | To(storage: seq<T>)

  /** A fixed-length, NUL-padded name. */
  type SysName = s: seq<byte> | |s| == NameLen witness seq(NameLen, _ => 0)

  datatype Mode = Mode(
    clock: uint32,
    hdisplay: uint16, hsyncStart: uint16, hsyncEnd: uint16, htotal: uint16, hskew: uint16,
    vdisplay: uint16, vsyncStart: uint16, vsyncEnd: uint16, vtotal: uint16, vscan: uint16,
    vrefresh: uint32,
    flags: uint32,
    typ: uint32,
    name: SysName)

  /** An all-NUL name. */
  function ZeroName(): (n: SysName)
    ensures forall i :: 0 <= i < NameLen ==> n[i] == 0
  {
    seq(NameLen, _ => 0)
  }

  /** Go's zero value of Mode, which `make([]Mode, n)` fills its slice with. */
  const ZeroMode: Mode := Mode(0, 0, 0, 0, 0, 0, 0, 0, 0, 0, 0, 0, 0, 0, ZeroName())

  /** The kernel-written part of the resources record. */
  datatype ResourcesInfo = ResourcesInfo(
    countFbs: uint32, countCrtcs: uint32, countConnectors: uint32, countEncoders: uint32,
    minWidth: uint32, maxWidth: uint32, minHeight: uint32, maxHeight: uint32)

  datatype SysResources = SysResources(
    fbIdPtr: Ptr<uint32>, crtcIdPtr: Ptr<uint32>, connectorIdPtr: Ptr<uint32>, encoderIdPtr: Ptr<uint32>,
    info: ResourcesInfo)

  datatype Resources = Resources(
    sys: SysResources,
    fbs: seq<uint32>, crtcs: seq<uint32>, connectors: seq<uint32>, encoders: seq<uint32>)

  /** The kernel-written part of the connector record. */
  datatype ConnectorInfo = ConnectorInfo(
    countModes: uint32, countProps: uint32, countEncoders: uint32,
    encoderID: uint32, id: uint32, typ: uint32, typeID: uint32,
    connection: uint32, widthMM: uint32, heightMM: uint32, subpixel: uint32)

  datatype SysGetConnector = SysGetConnector(
    encodersPtr: Ptr<uint32>, modesPtr: Ptr<Mode>, propsPtr: Ptr<uint32>, propValuesPtr: Ptr<uint64>,
    info: ConnectorInfo)

  datatype Connector = Connector(
    sys: SysGetConnector,
    modes: seq<Mode>, props: seq<uint32>, propValues: seq<uint64>, encoders: seq<uint32>)

  datatype Encoder = Encoder(id: uint32, typ: uint32, crtcID: uint32, possibleCrtcs: uint32, possibleClones: uint32)

  /** A dumb buffer as CreateDumb requests and the kernel describes it. */
  datatype FB = FB(height: uint32, width: uint32, bpp: uint32, flags: uint32,
                   handle: uint32, pitch: uint32, size: uint64)

  datatype SysFBCmd = SysFBCmd(fbID: uint32, width: uint32, height: uint32, pitch: uint32,
                               bpp: uint32, depth: uint32, handle: uint32)

  datatype SysMapDumb = SysMapDumb(handle: uint32, pad: uint32, offset: uint64)

  datatype SysCrtc = SysCrtc(
    setConnectorsPtr: Ptr<uint32>, countConnectors: uint32,
    id: uint32, fbID: uint32, x: uint32, y: uint32,
    gammaSize: uint32, modeValid: uint32, mode: Mode)

  datatype SysPageFlip = SysPageFlip(crtcID: uint32, fbID: uint32, flags: uint32, reserved: uint32, user: uint64)

  /** The CRTC as GetCrtc hands it to callers. */
  datatype Crtc = Crtc(id: uint32, bufferID: uint32, x: uint32, y: uint32,
                       width: uint32, height: uint32, modeValid: int, mode: Mode, gammaSize: int)

  /** Index of the first `c` in `s`, or -1 (bytes.IndexByte). */
  function IndexByte(s: seq<byte>, c: byte): (i: int)
    ensures -1 <= i < |s|
    ensures i == -1 <==> c !in s
    ensures 0 <= i ==> s[i] == c && c !in s[..i]
  {
    if |s| == 0 then -1
    else if s[0] == c then 0
    else
      var j := IndexByte(s[1..], c);
      if j < 0 then -1
      else
        assert s[..j + 1] == [s[0]] + s[1..][..j];
        j + 1
  }

  /**
   * sysName.String: the bytes before the first NUL. Without a NUL the Go
   * slice expression panics, hence the precondition.
   */
  function NameString(n: SysName): (s: seq<byte>)
    requires 0 in n
    ensures |s| < NameLen && s == n[..|s|] && n[|s|] == 0
    ensures 0 !in s
  {
    n[..IndexByte(n, 0)]
  }

  /** The field mapping GetCrtc applies to the record the kernel filled in. */
  function CrtcFromSys(s: SysCrtc): (c: Crtc)
    ensures c.width == s.mode.hdisplay && c.height == s.mode.vdisplay
    ensures c.id == s.id && c.bufferID == s.fbID && c.x == s.x && c.y == s.y
    ensures c.modeValid == s.modeValid && c.gammaSize == s.gammaSize && c.mode == s.mode
  {
    var ret := Crtc(s.id, s.fbID, s.x, s.y, 0, 0, s.modeValid as int, s.mode, s.gammaSize as int);
    ret.(width := s.mode.hdisplay as uint32, height := s.mode.vdisplay as uint32)
  }

  /** GetCrtc keeps every field of the kernel's record except the connector list. */
  lemma CrtcFromSysForgetsOnlyConnectors(s: SysCrtc, s': SysCrtc)
    ensures CrtcFromSys(s) == CrtcFromSys(s') <==>
      s.(setConnectorsPtr := Nil, countConnectors := 0) == s'.(setConnectorsPtr := Nil, countConnectors := 0)
  {
    if CrtcFromSys(s) == CrtcFromSys(s') {
      assert s.id == s'.id && s.fbID == s'.fbID && s.x == s'.x && s.y == s'.y;
      assert s.gammaSize == s'.gammaSize && s.modeValid == s'.modeValid && s.mode == s'.mode;
    }
  }

  /** Go's conversion `uint32(count)` of an int. */
  function Uint32Of(count: int): (r: uint32)
    ensures (r - count) % 0x1_0000_0000 == 0
    ensures 0 <= count < 0x1_0000_0000 ==> r == count
  {
    count % 0x1_0000_0000
  }

  /** The record SetCrtc builds before issuing the request. */
  function SetCrtcRecord(crtcid: uint32, fbID: uint32, x: uint32, y: uint32,
                         connectors: Ptr<uint32>, count: int, mode: Option<Mode>): (r: SysCrtc)
    ensures r.id == crtcid && r.fbID == fbID && r.x == x && r.y == y
    ensures r.setConnectorsPtr == connectors && r.countConnectors == Uint32Of(count)
    ensures r.modeValid == 1 <==> mode.Some?
    ensures r.modeValid == 0 <==> mode.None?
    ensures mode.Some? ==> r.mode == mode.value
    ensures mode.None? ==> r.mode == ZeroMode
    ensures r.gammaSize == 0
  {
    var crtc := SysCrtc(Nil, 0, 0, 0, 0, 0, 0, 0, ZeroMode);
    var crtc := crtc.(x := x, y := y, id := crtcid, fbID := fbID);
    var crtc := if connectors.To? then crtc.(setConnectorsPtr := connectors) else crtc;
    var crtc := crtc.(countConnectors := Uint32Of(count));
    if mode.Some? then crtc.(mode := mode.value, modeValid := 1) else crtc
  }

  /**
   * What SetCrtc programs is what GetCrtc reads back from the same record:
   * the id, framebuffer, position and mode, with the mode marked valid
   * exactly when one was supplied, and the size of that mode.
   */
  lemma SetCrtcThenGetCrtc(crtcid: uint32, fbID: uint32, x: uint32, y: uint32,
                           connectors: Ptr<uint32>, count: int, mode: Mode)
    ensures var c := CrtcFromSys(SetCrtcRecord(crtcid, fbID, x, y, connectors, count, Some(mode)));
      && c.id == crtcid && c.bufferID == fbID && c.x == x && c.y == y
      && c.modeValid == 1 && c.mode == mode
      && c.width == mode.hdisplay && c.height == mode.vdisplay
  {
  }

  // Payload sizes of the request records on a 64-bit host, as the kernel's
  // binary interface defines them.
  const SizeofResources: bv16 := 64
  const SizeofCrtc: bv16 := 104
  const SizeofEncoder: bv16 := 20
  const SizeofGetConnector: bv16 := 80
  const SizeofFBCmd: bv16 := 28
  const SizeofRmFB: bv16 := 4
  const SizeofCreateDumb: bv16 := 32
  const SizeofMapDumb: bv16 := 16
  const SizeofDestroyDumb: bv16 := 4
  const SizeofPageFlip: bv16 := 24
  const SizeofCapability: bv16 := 16

  /** The magic byte of the display subsystem, the character 'd'. */
  const IOCTLBase: bv8 := 0x64

  const IOCTLModeResources: bv32 := Ioctl.NewCmd(Ioctl.Read | Ioctl.Write, SizeofResources, IOCTLBase, 0xA0).cmd
  const IOCTLModeGetCrtc: bv32 := Ioctl.NewCmd(Ioctl.Read | Ioctl.Write, SizeofCrtc, IOCTLBase, 0xA1).cmd
  const IOCTLModeSetCrtc: bv32 := Ioctl.NewCmd(Ioctl.Read | Ioctl.Write, SizeofCrtc, IOCTLBase, 0xA2).cmd
  const IOCTLModeGetEncoder: bv32 := Ioctl.NewCmd(Ioctl.Read | Ioctl.Write, SizeofEncoder, IOCTLBase, 0xA6).cmd
  const IOCTLModeGetConnector: bv32 := Ioctl.NewCmd(Ioctl.Read | Ioctl.Write, SizeofGetConnector, IOCTLBase, 0xA7).cmd
  const IOCTLModeAddFB: bv32 := Ioctl.NewCmd(Ioctl.Read | Ioctl.Write, SizeofFBCmd, IOCTLBase, 0xAE).cmd
  const IOCTLModeRmFB: bv32 := Ioctl.NewCmd(Ioctl.Read | Ioctl.Write, SizeofRmFB, IOCTLBase, 0xAF).cmd
  const IOCTLModeCreateDumb: bv32 := Ioctl.NewCmd(Ioctl.Read | Ioctl.Write, SizeofCreateDumb, IOCTLBase, 0xB2).cmd
  const IOCTLModeMapDumb: bv32 := Ioctl.NewCmd(Ioctl.Read | Ioctl.Write, SizeofMapDumb, IOCTLBase, 0xB3).cmd
  const IOCTLModeDestroyDumb: bv32 := Ioctl.NewCmd(Ioctl.Read | Ioctl.Write, SizeofDestroyDumb, IOCTLBase, 0xB4).cmd
  const IOCTLModeCrtcPageFlip: bv32 := Ioctl.NewCmd(Ioctl.Read | Ioctl.Write, SizeofPageFlip, IOCTLBase, 0xB0).cmd
  /** The capability query of drm/cap.go, listed with its siblings. */
  const IOCTLGetCap: bv32 := Ioctl.NewCmd(Ioctl.Read | Ioctl.Write, SizeofCapability, IOCTLBase, 0x0C).cmd

  /**
   * A read-write request of the display subsystem with the given opcode and
   * payload size, built identically by the corrected encoder.
   */
  ghost predicate IsModeCommand(cmd: bv32, fn: bv8, size: bv16) {
    && Ioctl.Dir(cmd) == Ioctl.Read | Ioctl.Write
    && Ioctl.Size(cmd) == size
    && Ioctl.Magic(cmd) == IOCTLBase
    && Ioctl.Opcode(cmd) == fn
    && Ioctl.NewCmdChecked(Ioctl.Read | Ioctl.Write, size, IOCTLBase, fn) == Ioctl.Word(cmd)
  }

  lemma ModeCommandOf(fn: bv8, size: bv16)
    requires size < 1 << 14
    ensures IsModeCommand(Ioctl.NewCmd(Ioctl.Read | Ioctl.Write, size, IOCTLBase, fn).cmd, fn, size)
  {
    Ioctl.NewCmdRoundTrip(Ioctl.Read | Ioctl.Write, size, IOCTLBase, fn);
  }

  /** Every command constant decodes to read-write, magic 'd', its opcode and its size. */
  lemma ModeCommandsLayout()
    ensures IsModeCommand(IOCTLModeResources, 0xA0, 64)
    ensures IsModeCommand(IOCTLModeGetCrtc, 0xA1, 104)
    ensures IsModeCommand(IOCTLModeSetCrtc, 0xA2, 104)
    ensures IsModeCommand(IOCTLModeGetEncoder, 0xA6, 20)
    ensures IsModeCommand(IOCTLModeGetConnector, 0xA7, 80)
    ensures IsModeCommand(IOCTLModeAddFB, 0xAE, 28)
    ensures IsModeCommand(IOCTLModeRmFB, 0xAF, 4)
    ensures IsModeCommand(IOCTLModeCreateDumb, 0xB2, 32)
    ensures IsModeCommand(IOCTLModeMapDumb, 0xB3, 16)
    ensures IsModeCommand(IOCTLModeDestroyDumb, 0xB4, 4)
    ensures IsModeCommand(IOCTLModeCrtcPageFlip, 0xB0, 24)
    ensures IsModeCommand(IOCTLGetCap, 0x0C, 16)
  {
    ModeCommandOf(0xA0, SizeofResources);
    ModeCommandOf(0xA1, SizeofCrtc);
    ModeCommandOf(0xA2, SizeofCrtc);
    ModeCommandOf(0xA6, SizeofEncoder);
    ModeCommandOf(0xA7, SizeofGetConnector);
    ModeCommandOf(0xAE, SizeofFBCmd);
    ModeCommandOf(0xAF, SizeofRmFB);
    ModeCommandOf(0xB2, SizeofCreateDumb);
    ModeCommandOf(0xB3, SizeofMapDumb);
    ModeCommandOf(0xB4, SizeofDestroyDumb);
    ModeCommandOf(0xB0, SizeofPageFlip);
    ModeCommandOf(0x0C, SizeofCapability);
  }
}
