/**
 * The open display device (drm/drm.go's Card) and the requests it issues
 * (drm/mode.go, drm/event.go, drm/mmap/mmap.go).
 *
 * The kernel is an oracle. A Card records, in `trace`, every operation it
 * hands to the kernel, in order; the operation at position k of the trace
 * fails when `kernel.errno(k)` is non-zero and otherwise finds the kernel's
 * answer in the matching field of `kernel` at k. Because the program is
 * deterministic, answers indexed by call number alone cover every kernel
 * behaviour, including answers that change between two calls (hot-plug).
 *
 * Each request method is proved against a pure function that gives its
 * result and the operations it issues; the two-phase discovery requests
 * have their sizing rules stated on those functions.
 */
module DrmCard {
  import opened Base
  import opened DrmMode
  import DrmEvent

  /** EINVAL, which Go's syscall.Mmap returns for a non-positive length. */
  const EINVAL: nat := 22

  /** What the kernel writes for a resources request: the record and the id lists. */
  datatype ResourcesReply = ResourcesReply(
    info: ResourcesInfo,
    fbs: seq<uint32>, crtcs: seq<uint32>, connectors: seq<uint32>, encoders: seq<uint32>)

  /** What the kernel writes for a connector request: the record and the arrays. */
  datatype ConnectorReply = ConnectorReply(
    info: ConnectorInfo,
    modes: seq<Mode>, props: seq<uint32>, propValues: seq<uint64>, encoders: seq<uint32>)

  /**
   * The kernel's behaviour, one answer per call number. It never rewrites
   * the caller's pointer fields, and it writes an array only into the
   * storage the caller supplied, up to that storage's length.
   */
  datatype Kernel = Kernel(
    errno: nat -> nat,
    resources: nat -> ResourcesReply,
    connector: nat -> ConnectorReply,
    encoder: nat -> Encoder,
    crtc: nat -> SysCrtc,
    dumb: nat -> FB,
    fbCmd: nat -> SysFBCmd,
    mapDumb: nat -> SysMapDumb,
    read: nat -> seq<byte>)

  /** The record an ioctl passes to the kernel. */
  datatype Payload =
    | ResourcesArg(res: SysResources)
    | ConnectorArg(conn: SysGetConnector)
    | EncoderArg(enc: Encoder)
    | CrtcArg(crtc: SysCrtc)
    | CreateDumbArg(fb: FB)
    | FBCmdArg(fbCmd: SysFBCmd)
    | HandleArg(handle: uint32)
    | MapDumbArg(mapDumb: SysMapDumb)
    | PageFlipArg(flip: SysPageFlip)

  /** An operation handed to the kernel. */
  datatype Op =
    | Ioctl(cmd: bv32, arg: Payload)
    | Mmap(offset: int, length: int)
    | Munmap(region: array<byte>)
    | Read(size: nat)

  /** The result of a request and the operations it issued. */
  datatype Step<T> = Step(result: Result<T>, ops: seq<Op>)

  /** The outcome of an error-only request and the operations it issued. */
  datatype Trail = Trail(outcome: Outcome, ops: seq<Op>)

  /** The outcome of the call at position k. */
  function StatusAt(K: Kernel, k: nat): (r: Outcome)
    ensures r.Pass? <==> K.errno(k) == 0
    ensures r.Fail? ==> r.error == Errno(K.errno(k))
  {
    if K.errno(k) != 0 then Fail(Errno(K.errno(k))) else Pass
  }

  /** The j-th call after position k succeeds. */
  predicate CallOk(K: Kernel, k: nat, j: nat) {
    K.errno(k + j) == 0
  }

  /** The n calls from position k on all succeed. */
  predicate AllOk(K: Kernel, k: nat, n: nat) {
    forall j :: 0 <= j < n ==> CallOk(K, k, j)
  }

  /** n + 1 calls from k succeed exactly when the call at k and the n calls from k + 1 do. */
  lemma AllOkShift(K: Kernel, k: nat, n: nat)
    ensures AllOk(K, k, n + 1) <==> CallOk(K, k, 0) && AllOk(K, k + 1, n)
  {
    var k1 := k + 1;
    if CallOk(K, k, 0) && AllOk(K, k1, n) {
      forall j | 0 <= j < n + 1
        ensures CallOk(K, k, j)
      {
        if j > 0 {
          assert CallOk(K, k1, j - 1);
        }
      }
    }
    if AllOk(K, k, n + 1) {
      forall j | 0 <= j < n
        ensures CallOk(K, k1, j)
      {
        assert CallOk(K, k, j + 1);
      }
    }
  }

  /** `make([]T, n)`: n zero values. */
  function Filled<T>(n: nat, zero: T): (s: seq<T>)
    ensures |s| == n && forall i :: 0 <= i < n ==> s[i] == zero
  {
    seq(n, _ => zero)
  }

  /** A pointer field set to `&s[0]` when s is non-empty, and left nil otherwise. */
  function PtrTo<T>(s: seq<T>): (p: Ptr<T>)
    ensures p.Nil? <==> |s| == 0
    ensures p.To? ==> p.storage == s
  {
    if |s| > 0 then To(s) else Nil
  }

  const NoResourcesInfo: ResourcesInfo := ResourcesInfo(0, 0, 0, 0, 0, 0, 0, 0)
  const NoConnectorInfo: ConnectorInfo := ConnectorInfo(0, 0, 0, 0, 0, 0, 0, 0, 0, 0, 0)

  /** A pointer that addresses exactly n slots, or is nil when n is 0. */
  ghost predicate Sized<T>(p: Ptr<T>, n: nat) {
    (n == 0 <==> p.Nil?) && (p.To? ==> |p.storage| == n)
  }

  /**
   * GetResources: ask for the counts with every pointer nil, allocate one
   * array per non-zero count, then ask again to have the arrays filled.
   */
  function FetchResources(K: Kernel, k: nat): (s: Step<Resources>)
    ensures |s.ops| == if K.errno(k) != 0 then 1 else 2
    ensures s.ops[0] == Ioctl(IOCTLModeResources, ResourcesArg(SysResources(Nil, Nil, Nil, Nil, NoResourcesInfo)))
    ensures s.result.Ok? <==> K.errno(k) == 0 && K.errno(k + 1) == 0
    ensures K.errno(k) != 0 ==> s.result == Err(Errno(K.errno(k)))
    ensures K.errno(k) == 0 && K.errno(k + 1) != 0 ==> s.result == Err(Errno(K.errno(k + 1)))
  {
    var req1 := SysResources(Nil, Nil, Nil, Nil, NoResourcesInfo);
    var op1 := Ioctl(IOCTLModeResources, ResourcesArg(req1));
    if K.errno(k) != 0 then
      Step(Err(Errno(K.errno(k))), [op1])
    else
      var first := K.resources(k).info;
      var fbs := Filled(first.countFbs, 0);
      var crtcs := Filled(first.countCrtcs, 0);
      var connectors := Filled(first.countConnectors, 0);
      var encoders := Filled(first.countEncoders, 0);
      var req2 := SysResources(PtrTo(fbs), PtrTo(crtcs), PtrTo(connectors), PtrTo(encoders), first);
      var ops := [op1, Ioctl(IOCTLModeResources, ResourcesArg(req2))];
      if K.errno(k + 1) != 0 then
        Step(Err(Errno(K.errno(k + 1))), ops)
      else
        var second := K.resources(k + 1);
        Step(Ok(Resources(req2.(info := second.info),
                          Copy(fbs, second.fbs), Copy(crtcs, second.crtcs),
                          Copy(connectors, second.connectors), Copy(encoders, second.encoders))),
             ops)
  }

  /** The second resources request carries the first answer's counts and one array per non-zero count. */
  lemma FetchResourcesSecondRequest(K: Kernel, k: nat)
    requires K.errno(k) == 0
    ensures var s := FetchResources(K, k); var first := K.resources(k).info;
      && |s.ops| == 2
      && s.ops[1].Ioctl? && s.ops[1].cmd == IOCTLModeResources && s.ops[1].arg.ResourcesArg?
      && var req := s.ops[1].arg.res;
      && req.info == first
      && Sized(req.fbIdPtr, first.countFbs) && Sized(req.crtcIdPtr, first.countCrtcs)
      && Sized(req.connectorIdPtr, first.countConnectors) && Sized(req.encoderIdPtr, first.countEncoders)
  {
  }

  /**
   * Each id list has the length the first answer counted (empty when the
   * count is 0) and holds what the kernel wrote into it on the second call.
   */
  lemma FetchResourcesSizes(K: Kernel, k: nat)
    requires FetchResources(K, k).result.Ok?
    ensures
      var first := K.resources(k).info;
      var second := K.resources(k + 1);
      var res := FetchResources(K, k).result.value;
      && |res.fbs| == first.countFbs && |res.crtcs| == first.countCrtcs
      && |res.connectors| == first.countConnectors && |res.encoders| == first.countEncoders
      && res.sys.info == second.info
      && res.fbs == Copy(Filled(first.countFbs, 0), second.fbs)
      && res.crtcs == Copy(Filled(first.countCrtcs, 0), second.crtcs)
      && res.connectors == Copy(Filled(first.countConnectors, 0), second.connectors)
      && res.encoders == Copy(Filled(first.countEncoders, 0), second.encoders)
  {
  }

  /** The number of mode slots GetConnector allocates: the count, or 1 if it is 0. */
  function ModeSlots(countModes: uint32): (n: uint32)
    ensures n >= 1 && n >= countModes
    ensures countModes > 0 ==> n == countModes
  {
    if countModes == 0 then 1 else countModes
  }

  /**
   * GetConnector(id): ask for the counts with the id filled in and every
   * pointer nil; allocate the property, property-value and encoder arrays
   * for non-zero counts and always at least one mode slot; ask again.
   */
  function FetchConnector(K: Kernel, k: nat, id: uint32): (s: Step<Connector>)
    ensures |s.ops| == if K.errno(k) != 0 then 1 else 2
    ensures s.ops[0] == Ioctl(IOCTLModeGetConnector, ConnectorArg(SysGetConnector(Nil, Nil, Nil, Nil, NoConnectorInfo.(id := id))))
    ensures s.result.Ok? <==> K.errno(k) == 0 && K.errno(k + 1) == 0
    ensures K.errno(k) != 0 ==> s.result == Err(Errno(K.errno(k)))
    ensures K.errno(k) == 0 && K.errno(k + 1) != 0 ==> s.result == Err(Errno(K.errno(k + 1)))
    ensures s.result.Ok? ==> |s.result.value.modes| >= 1
  {
    var req1 := SysGetConnector(Nil, Nil, Nil, Nil, NoConnectorInfo.(id := id));
    var op1 := Ioctl(IOCTLModeGetConnector, ConnectorArg(req1));
    if K.errno(k) != 0 then
      Step(Err(Errno(K.errno(k))), [op1])
    else
      var first := K.connector(k).info;
      var props := Filled(first.countProps, 0);
      var propValues := Filled(first.countProps, 0);
      var encoders := Filled(first.countEncoders, 0);
      var modes := Filled(ModeSlots(first.countModes), ZeroMode);
      var req2 := SysGetConnector(PtrTo(encoders), To(modes), PtrTo(props), PtrTo(propValues),
                                  first.(countModes := ModeSlots(first.countModes)));
      var ops := [op1, Ioctl(IOCTLModeGetConnector, ConnectorArg(req2))];
      if K.errno(k + 1) != 0 then
        Step(Err(Errno(K.errno(k + 1))), ops)
      else
        var second := K.connector(k + 1);
        Step(Ok(Connector(req2.(info := second.info),
                          Copy(modes, second.modes), Copy(props, second.props),
                          Copy(propValues, second.propValues), Copy(encoders, second.encoders))),
             ops)
  }

  /**
   * The second connector request carries the first answer's counts, with a
   * zero mode count raised to one, and storage of exactly those sizes.
   */
  lemma FetchConnectorSecondRequest(K: Kernel, k: nat, id: uint32)
    requires K.errno(k) == 0
    ensures var s := FetchConnector(K, k, id); var first := K.connector(k).info;
      && |s.ops| == 2
      && s.ops[1].Ioctl? && s.ops[1].cmd == IOCTLModeGetConnector && s.ops[1].arg.ConnectorArg?
      && var req := s.ops[1].arg.conn;
      && req.info == first.(countModes := ModeSlots(first.countModes))
      && Sized(req.modesPtr, ModeSlots(first.countModes))
      && Sized(req.propsPtr, first.countProps) && Sized(req.propValuesPtr, first.countProps)
      && Sized(req.encodersPtr, first.countEncoders)
  {
  }

  /**
   * A fetched connector has max(countModes, 1) mode slots, countProps
   * properties and property values, countEncoders encoders (counts from the
   * first answer), filled with what the kernel wrote on the second call.
   */
  lemma FetchConnectorSizes(K: Kernel, k: nat, id: uint32)
    requires FetchConnector(K, k, id).result.Ok?
    ensures
      var first := K.connector(k).info;
      var second := K.connector(k + 1);
      var c := FetchConnector(K, k, id).result.value;
      && |c.modes| == ModeSlots(first.countModes)
      && |c.props| == first.countProps && |c.propValues| == first.countProps
      && |c.encoders| == first.countEncoders
      && c.sys.info == second.info
      && c.modes == Copy(Filled(ModeSlots(first.countModes), ZeroMode), second.modes)
      && c.props == Copy(Filled(first.countProps, 0), second.props)
      && c.propValues == Copy(Filled(first.countProps, 0), second.propValues)
      && c.encoders == Copy(Filled(first.countEncoders, 0), second.encoders)
  {
  }

  /** GetEncoder(id): a single request; the kernel's record is the result. */
  function FetchEncoder(K: Kernel, k: nat, id: uint32): (s: Step<Encoder>)
    ensures s.ops == [Ioctl(IOCTLModeGetEncoder, EncoderArg(Encoder(id, 0, 0, 0, 0)))]
    ensures s.result.Ok? <==> K.errno(k) == 0
    ensures s.result.Err? ==> s.result.error == Errno(K.errno(k))
    ensures s.result.Ok? ==> s.result.value == K.encoder(k)
  {
    var op := Ioctl(IOCTLModeGetEncoder, EncoderArg(Encoder(id, 0, 0, 0, 0)));
    if K.errno(k) != 0 then Step(Err(Errno(K.errno(k))), [op]) else Step(Ok(K.encoder(k)), [op])
  }

  /**
   * What the read of one event leaves: the read's error, or the count and
   * the 1024-byte buffer whose first bytes the kernel filled.
   */
  function ReadAt(K: Kernel, k: nat): (r: DrmEvent.ReadOutcome)
    ensures DrmEvent.WellFormed(r)
    ensures r.ReadFailed? <==> K.errno(k) != 0
    ensures r.ReadFailed? ==> r.errno == K.errno(k)
    ensures r.ReadDone? ==> r.n == (if |K.read(k)| < DrmEvent.ReadBufferSize then |K.read(k)| else DrmEvent.ReadBufferSize)
    ensures r.ReadDone? ==> r.buf[..r.n] == K.read(k)[..r.n]
    ensures r.ReadDone? ==> forall i :: r.n <= i < DrmEvent.ReadBufferSize ==> r.buf[i] == 0
  {
    if K.errno(k) != 0 then
      DrmEvent.ReadFailed(K.errno(k))
    else
      var data := K.read(k);
      var n := if |data| < DrmEvent.ReadBufferSize then |data| else DrmEvent.ReadBufferSize;
      var buf := Copy(Filled(DrmEvent.ReadBufferSize, 0), data);
      assert buf[..n] == data[..n];
      DrmEvent.ReadDone(n, buf)
  }

  /** The outcome of Card.ReadEvent for the read at position k. */
  function ReadEventAt(K: Kernel, k: nat): (r: Outcome)
    ensures K.errno(k) != 0 ==> r == Fail(Errno(K.errno(k)))
    ensures K.errno(k) == 0 ==> (r.Pass? <==> |K.read(k)| >= DrmEvent.HeaderSize)
    ensures K.errno(k) == 0 && |K.read(k)| < DrmEvent.HeaderSize ==> r == Fail(NotEnough)
  {
    var res := DrmEvent.ReadEvent(ReadAt(K, k));
    if res.Ok? then Pass else Fail(res.error)
  }

  /** An open display device. */
  class Card {
    const kernel: Kernel
    /** Every operation handed to the kernel so far, in order. */
    var trace: seq<Op>

    constructor (kernel: Kernel)
      ensures this.kernel == kernel && trace == []
    {
      this.kernel := kernel;
      trace := [];
    }

    /** Hand one operation to the kernel; its error number comes back (0 = success). */
    method Call(op: Op) returns (errno: nat)
      modifies this
      ensures trace == old(trace) + [op]
      ensures errno == kernel.errno(|old(trace)|)
    {
      errno := kernel.errno(|trace|);
      trace := trace + [op];
    }

    method GetResources() returns (r: Result<Resources>)
      modifies this
      ensures var s := FetchResources(kernel, |old(trace)|);
        r == s.result && trace == old(trace) + s.ops
    {
      var k := |trace|;
      var res := Resources(SysResources(Nil, Nil, Nil, Nil, NoResourcesInfo), [], [], [], []);
      var err := Call(Ioctl(IOCTLModeResources, ResourcesArg(res.sys)));
      if err != 0 {
        return Err(Errno(err));
      }
      res := res.(sys := res.sys.(info := kernel.resources(k).info));
      var info := res.sys.info;
      if info.countFbs > 0 {
        res := res.(fbs := Filled(info.countFbs, 0));
        res := res.(sys := res.sys.(fbIdPtr := To(res.fbs)));
      }
      if info.countCrtcs > 0 {
        res := res.(crtcs := Filled(info.countCrtcs, 0));
        res := res.(sys := res.sys.(crtcIdPtr := To(res.crtcs)));
      }
      if info.countEncoders > 0 {
        res := res.(encoders := Filled(info.countEncoders, 0));
        res := res.(sys := res.sys.(encoderIdPtr := To(res.encoders)));
      }
      if info.countConnectors > 0 {
        res := res.(connectors := Filled(info.countConnectors, 0));
        res := res.(sys := res.sys.(connectorIdPtr := To(res.connectors)));
      }
      assert res.fbs == Filled(info.countFbs, 0) && res.crtcs == Filled(info.countCrtcs, 0);
      assert res.connectors == Filled(info.countConnectors, 0) && res.encoders == Filled(info.countEncoders, 0);
      assert res.sys == SysResources(PtrTo(res.fbs), PtrTo(res.crtcs), PtrTo(res.connectors), PtrTo(res.encoders), info);
      err := Call(Ioctl(IOCTLModeResources, ResourcesArg(res.sys)));
      if err != 0 {
        return Err(Errno(err));
      }
      var reply := kernel.resources(k + 1);
      res := Resources(res.sys.(info := reply.info),
                       Copy(res.fbs, reply.fbs), Copy(res.crtcs, reply.crtcs),
                       Copy(res.connectors, reply.connectors), Copy(res.encoders, reply.encoders));
      return Ok(res);
    }

    method GetConnector(id: uint32) returns (r: Result<Connector>)
      modifies this
      ensures var s := FetchConnector(kernel, |old(trace)|, id);
        r == s.result && trace == old(trace) + s.ops
    {
      var k := |trace|;
      var res := Connector(SysGetConnector(Nil, Nil, Nil, Nil, NoConnectorInfo), [], [], [], []);
      res := res.(sys := res.sys.(info := res.sys.info.(id := id)));
      var err := Call(Ioctl(IOCTLModeGetConnector, ConnectorArg(res.sys)));
      if err != 0 {
        return Err(Errno(err));
      }
      res := res.(sys := res.sys.(info := kernel.connector(k).info));
      var info := res.sys.info;
      if info.countProps > 0 {
        res := res.(props := Filled(info.countProps, 0));
        res := res.(sys := res.sys.(propsPtr := To(res.props)));
        res := res.(propValues := Filled(info.countProps, 0));
        res := res.(sys := res.sys.(propValuesPtr := To(res.propValues)));
      }
      if info.countEncoders > 0 {
        res := res.(encoders := Filled(info.countEncoders, 0));
        res := res.(sys := res.sys.(encodersPtr := To(res.encoders)));
      }
      if res.sys.info.countModes == 0 {
        res := res.(sys := res.sys.(info := res.sys.info.(countModes := 1)));
      }
      res := res.(modes := Filled(res.sys.info.countModes, ZeroMode));
      res := res.(sys := res.sys.(modesPtr := To(res.modes)));
      assert res.props == Filled(info.countProps, 0) && res.propValues == Filled(info.countProps, 0);
      assert res.encoders == Filled(info.countEncoders, 0);
      assert res.modes == Filled(ModeSlots(info.countModes), ZeroMode);
      assert res.sys == SysGetConnector(PtrTo(res.encoders), To(res.modes), PtrTo(res.props), PtrTo(res.propValues),
                                        info.(countModes := ModeSlots(info.countModes)));
      err := Call(Ioctl(IOCTLModeGetConnector, ConnectorArg(res.sys)));
      if err != 0 {
        return Err(Errno(err));
      }
      var reply := kernel.connector(k + 1);
      res := Connector(res.sys.(info := reply.info),
                       Copy(res.modes, reply.modes), Copy(res.props, reply.props),
                       Copy(res.propValues, reply.propValues), Copy(res.encoders, reply.encoders));
      return Ok(res);
    }

    method GetEncoder(id: uint32) returns (r: Result<Encoder>)
      modifies this
      ensures var s := FetchEncoder(kernel, |old(trace)|, id);
        r == s.result && trace == old(trace) + s.ops
    {
      var k := |trace|;
      var res := Encoder(id, 0, 0, 0, 0);
      var err := Call(Ioctl(IOCTLModeGetEncoder, EncoderArg(res)));
      if err != 0 {
        return Err(Errno(err));
      }
      return Ok(kernel.encoder(k));
    }

    method CreateDumb(width: uint32, height: uint32, bpp: uint32) returns (r: Result<FB>)
      modifies this
      ensures trace == old(trace) + [Ioctl(IOCTLModeCreateDumb, CreateDumbArg(FB(height, width, bpp, 0, 0, 0, 0)))]
      ensures StatusAt(kernel, |old(trace)|).Fail? ==> r == Err(StatusAt(kernel, |old(trace)|).error)
      ensures StatusAt(kernel, |old(trace)|).Pass? ==> r == Ok(kernel.dumb(|old(trace)|))
    {
      var k := |trace|;
      var res := FB(0, 0, 0, 0, 0, 0, 0).(width := width, height := height, bpp := bpp);
      var err := Call(Ioctl(IOCTLModeCreateDumb, CreateDumbArg(res)));
      if err != 0 {
        return Err(Errno(err));
      }
      return Ok(kernel.dumb(k));
    }

    method AddFB(width: uint32, height: uint32, depth: uint32, bpp: uint32, pitch: uint32, boHandle: uint32)
      returns (r: Result<uint32>)
      modifies this
      ensures trace == old(trace) + [Ioctl(IOCTLModeAddFB, FBCmdArg(SysFBCmd(0, width, height, pitch, bpp, depth, boHandle)))]
      ensures StatusAt(kernel, |old(trace)|).Fail? ==> r == Err(StatusAt(kernel, |old(trace)|).error)
      ensures StatusAt(kernel, |old(trace)|).Pass? ==> r == Ok(kernel.fbCmd(|old(trace)|).fbID)
    {
      var k := |trace|;
      var f := SysFBCmd(0, 0, 0, 0, 0, 0, 0);
      f := f.(width := width, height := height, pitch := pitch, bpp := bpp, depth := depth, handle := boHandle);
      var err := Call(Ioctl(IOCTLModeAddFB, FBCmdArg(f)));
      if err != 0 {
        return Err(Errno(err));
      }
      return Ok(kernel.fbCmd(k).fbID);
    }

    method RmFB(bufferid: uint32) returns (r: Outcome)
      modifies this
      ensures trace == old(trace) + [Ioctl(IOCTLModeRmFB, HandleArg(bufferid))]
      ensures r == StatusAt(kernel, |old(trace)|)
    {
      var err := Call(Ioctl(IOCTLModeRmFB, HandleArg(bufferid)));
      r := if err != 0 then Fail(Errno(err)) else Pass;
    }

    method MapDumb(boHandle: uint32) returns (r: Result<uint64>)
      modifies this
      ensures trace == old(trace) + [Ioctl(IOCTLModeMapDumb, MapDumbArg(SysMapDumb(boHandle, 0, 0)))]
      ensures StatusAt(kernel, |old(trace)|).Fail? ==> r == Err(StatusAt(kernel, |old(trace)|).error)
      ensures StatusAt(kernel, |old(trace)|).Pass? ==> r == Ok(kernel.mapDumb(|old(trace)|).offset)
    {
      var k := |trace|;
      var mreq := SysMapDumb(0, 0, 0).(handle := boHandle);
      var err := Call(Ioctl(IOCTLModeMapDumb, MapDumbArg(mreq)));
      if err != 0 {
        return Err(Errno(err));
      }
      return Ok(kernel.mapDumb(k).offset);
    }

    method DestroyDumb(handle: uint32) returns (r: Outcome)
      modifies this
      ensures trace == old(trace) + [Ioctl(IOCTLModeDestroyDumb, HandleArg(handle))]
      ensures r == StatusAt(kernel, |old(trace)|)
    {
      var err := Call(Ioctl(IOCTLModeDestroyDumb, HandleArg(handle)));
      r := if err != 0 then Fail(Errno(err)) else Pass;
    }

    method GetCrtc(id: uint32) returns (r: Result<Crtc>)
      modifies this
      ensures trace == old(trace) + [Ioctl(IOCTLModeGetCrtc, CrtcArg(SysCrtc(Nil, 0, id, 0, 0, 0, 0, 0, ZeroMode)))]
      ensures StatusAt(kernel, |old(trace)|).Fail? ==> r == Err(StatusAt(kernel, |old(trace)|).error)
      ensures StatusAt(kernel, |old(trace)|).Pass? ==> r == Ok(CrtcFromSys(kernel.crtc(|old(trace)|)))
    {
      var k := |trace|;
      var crtc := SysCrtc(Nil, 0, 0, 0, 0, 0, 0, 0, ZeroMode).(id := id);
      var err := Call(Ioctl(IOCTLModeGetCrtc, CrtcArg(crtc)));
      if err != 0 {
        return Err(Errno(err));
      }
      return Ok(CrtcFromSys(kernel.crtc(k)));
    }

    method SetCrtc(crtcid: uint32, fbID: uint32, x: uint32, y: uint32,
                   connectors: Ptr<uint32>, count: int, mode: Option<Mode>) returns (r: Outcome)
      modifies this
      ensures trace == old(trace) + [Ioctl(IOCTLModeSetCrtc, CrtcArg(SetCrtcRecord(crtcid, fbID, x, y, connectors, count, mode)))]
      ensures r == StatusAt(kernel, |old(trace)|)
    {
      var crtc := SetCrtcRecord(crtcid, fbID, x, y, connectors, count, mode);
      var err := Call(Ioctl(IOCTLModeSetCrtc, CrtcArg(crtc)));
      r := if err != 0 then Fail(Errno(err)) else Pass;
    }

    method ModePageFlip(fbID: uint32, crtcID: uint32, flags: uint32) returns (r: Outcome)
      modifies this
      ensures trace == old(trace) + [Ioctl(IOCTLModeCrtcPageFlip, PageFlipArg(SysPageFlip(crtcID, fbID, flags, 0, 0)))]
      ensures r == StatusAt(kernel, |old(trace)|)
    {
      var flip := SysPageFlip(crtcID, fbID, flags, 0, 0);
      var err := Call(Ioctl(IOCTLModeCrtcPageFlip, PageFlipArg(flip)));
      r := if err != 0 then Fail(Errno(err)) else Pass;
    }

    /** One blocking read of the event stream, then the header checks. */
    method ReadEvent() returns (r: Outcome)
      modifies this
      ensures trace == old(trace) + [Read(DrmEvent.ReadBufferSize)]
      ensures r == ReadEventAt(kernel, |old(trace)|)
    {
      var k := |trace|;
      var err := Call(Read(DrmEvent.ReadBufferSize));
      var header := DrmEvent.ReadEvent(ReadAt(kernel, k));
      r := if header.Ok? then Pass else Fail(header.error);
    }

    /**
     * mmap.Map: a shared read-write mapping of `size` bytes at `offset`.
     * Go's syscall.Mmap turns a non-positive length away with EINVAL
     * before asking the kernel.
     */
    method Map(offset: int, size: int) returns (r: Result<array<byte>>)
      modifies this
      ensures size <= 0 ==> trace == old(trace) && r == Err(Errno(EINVAL))
      ensures size > 0 ==> trace == old(trace) + [Mmap(offset, size)]
      ensures size > 0 && StatusAt(kernel, |old(trace)|).Fail? ==> r == Err(StatusAt(kernel, |old(trace)|).error)
      ensures size > 0 && StatusAt(kernel, |old(trace)|).Pass? ==>
        r.Ok? && fresh(r.value) && r.value.Length == size
    {
      if size <= 0 {
        return Err(Errno(EINVAL));
      }
      var err := Call(Mmap(offset, size));
      if err != 0 {
        return Err(Errno(err));
      }
      var region := new byte[size];
      return Ok(region);
    }

    /** mmap.Unmap. */
    method Unmap(region: array<byte>) returns (r: Outcome)
      modifies this
      ensures trace == old(trace) + [Munmap(region)]
      ensures r == StatusAt(kernel, |old(trace)|)
    {
      var err := Call(Munmap(region));
      r := if err != 0 then Fail(Errno(err)) else Pass;
    }
  }
}
