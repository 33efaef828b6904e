/**
 * Output selection and the framebuffer lifecycle (mode.go).
 *
 * Modeset.Setup walks the connectors in the order GetResources lists them
 * and keeps the first one that is connected, has a mode and names an
 * encoder. CreateFB, DestroyFB and WaitFlip are fixed sequences of requests
 * that stop at the first error. Every method is proved against a function
 * of the kernel and the trace position that gives the operations it issues
 * and its result; the properties of the selection are lemmas about `Scan`.
 */
module Modesetting {
  import opened Base
  import opened DrmMode
  import opened DrmCard

  /** A framebuffer: its id, size, mapped memory, row stride and dumb-buffer handle. */
  datatype Framebuffer = Framebuffer(
    id: uint32, width: uint32, height: uint32, buffer: array<byte>, stride: uint32, handle: uint32)

  /** What the kernel's answers determine about a framebuffer: everything but the memory itself. */
  datatype FramebufferInfo = FramebufferInfo(
    id: uint32, width: uint32, height: uint32, stride: uint32, handle: uint32, size: int)

  function InfoOf(f: Framebuffer): FramebufferInfo {
    FramebufferInfo(f.id, f.width, f.height, f.stride, f.handle, f.buffer.Length)
  }

  /** The output Setup settles on. */
  datatype Selection = Selection(conn: uint32, crtc: uint32, mode: Mode)

  /**
   * The connector filter of Setup, in the order the source applies it. A
   * connector that passes has a mode at index 0 and an encoder to request.
   */
  function Usable(c: Connector): (b: bool)
    ensures b ==> |c.modes| > 0 && c.sys.info.encoderID != 0
  {
    c.sys.info.connection == Connected && |c.modes| > 0 && c.sys.info.encoderID != 0
  }

  /**
   * The connector fetched for ids[t] when every earlier one was passed over:
   * two calls per connector after the base position.
   */
  function ConnectorAt(K: Kernel, base: nat, ids: seq<uint32>, t: nat): (r: Result<Connector>)
    requires t < |ids|
    ensures r.Ok? ==> |r.value.modes| >= 1
    ensures r.Err? ==> r.error.Errno?
  {
    FetchConnector(K, base + 2 * t, ids[t]).result
  }

  /** What the connector loop does at connector t, fetched after t passed-over connectors. */
  datatype Visit = Abort(error: Error) | Skip | Choose(sel: Selection)

  /**
   * Connector t's visit: its request fails (the loop aborts), it does not
   * pass the filter (skipped), or it passes and its encoder request decides.
   */
  function VisitAt(K: Kernel, base: nat, ids: seq<uint32>, t: nat): (v: Visit)
    requires t < |ids|
    ensures v.Abort? ==> v.error.Errno?
    ensures v.Choose? ==> var c := ConnectorAt(K, base, ids, t);
      c.Ok? && Usable(c.value) && v.sel.conn == c.value.sys.info.id && v.sel.mode == c.value.modes[0]
  {
    var c := ConnectorAt(K, base, ids, t);
    if c.Err? then
      Abort(c.error)
    else if !Usable(c.value) then
      Skip
    else
      var e := FetchEncoder(K, base + 2 * t + 2, c.value.sys.info.encoderID).result;
      if e.Err? then Abort(e.error) else Choose(Selection(c.value.sys.info.id, e.value.crtcID, c.value.modes[0]))
  }

  /** The requests issued at connector t: the connector's, then the encoder's if the connector passed. */
  function VisitOps(K: Kernel, base: nat, ids: seq<uint32>, t: nat): (os: seq<Op>)
    requires t < |ids|
    ensures FetchConnector(K, base + 2 * t, ids[t]).ops <= os && |os| <= 3
  {
    var f := FetchConnector(K, base + 2 * t, ids[t]);
    if f.result.Ok? && Usable(f.result.value) then
      f.ops + FetchEncoder(K, base + 2 * t + 2, f.result.value.sys.info.encoderID).ops
    else
      f.ops
  }

  /** The visit of every connector, each as if all earlier ones were skipped. */
  function Visits(K: Kernel, base: nat, ids: seq<uint32>): (vs: seq<Visit>)
    ensures |vs| == |ids| && forall t :: 0 <= t < |ids| ==> vs[t] == VisitAt(K, base, ids, t)
  {
    seq(|ids|, t requires 0 <= t < |ids| => VisitAt(K, base, ids, t))
  }

  /** The requests of every connector's visit. */
  function VisitsOps(K: Kernel, base: nat, ids: seq<uint32>): (os: seq<seq<Op>>)
    ensures |os| == |ids| && forall t :: 0 <= t < |ids| ==> os[t] == VisitOps(K, base, ids, t)
  {
    seq(|ids|, t requires 0 <= t < |ids| => VisitOps(K, base, ids, t))
  }

  /** Connector requests fail only with operating-system errors. */
  lemma VisitsAbortWithErrno(K: Kernel, base: nat, ids: seq<uint32>)
    ensures AbortsWithErrno(Visits(K, base, ids))
  {
  }

  ghost predicate AbortsWithErrno(vs: seq<Visit>) {
    forall t :: 0 <= t < |vs| && vs[t].Abort? ==> vs[t].error.Errno?
  }

  /** The visits i..j-1 were all skipped. */
  ghost predicate Skipped(vs: seq<Visit>, i: nat, j: nat)
    requires i <= j <= |vs|
  {
    forall t :: i <= t < j ==> vs[t].Skip?
  }

  /** The result of the connector loop from visit i on. */
  function ScanResult(vs: seq<Visit>, i: nat): (r: Result<Selection>)
    requires i <= |vs|
    ensures r.Ok? ==> exists j :: i <= j < |vs| && vs[j] == Choose(r.value)
    ensures r.Err? && r.error != NoMatchingMode ==> exists j :: i <= j < |vs| && vs[j] == Abort(r.error)
    decreases |vs| - i
  {
    if i == |vs| then
      Err(NoMatchingMode)
    else
      match vs[i]
      case Abort(e) => Err(e)
      case Skip => ScanResult(vs, i + 1)
      case Choose(sel) => Ok(sel)
  }

  /** The requests the connector loop issues from visit i on. */
  function ScanOps(vs: seq<Visit>, os: seq<seq<Op>>, i: nat): (r: seq<Op>)
    requires i <= |vs| == |os|
    ensures i < |vs| ==> os[i] <= r
    decreases |vs| - i
  {
    if i == |vs| then
      []
    else if vs[i].Skip? then
      os[i] + ScanOps(vs, os, i + 1)
    else
      os[i]
  }

  /** Connector t's visit and requests, spelled out by the outcome of its connector request. */
  lemma VisitCases(K: Kernel, base: nat, ids: seq<uint32>, t: nat)
    requires t < |ids|
    ensures var f := FetchConnector(K, base + 2 * t, ids[t]);
      && ConnectorAt(K, base, ids, t) == f.result
      && (f.result.Err? ==> VisitAt(K, base, ids, t) == Abort(f.result.error) && VisitOps(K, base, ids, t) == f.ops)
      && (f.result.Ok? && !Usable(f.result.value) ==> VisitAt(K, base, ids, t) == Skip && VisitOps(K, base, ids, t) == f.ops)
      && (f.result.Ok? && Usable(f.result.value) ==>
            var c := f.result.value;
            var e := FetchEncoder(K, base + 2 * t + 2, c.sys.info.encoderID);
            && VisitOps(K, base, ids, t) == f.ops + e.ops
            && VisitAt(K, base, ids, t) == if e.result.Err? then Abort(e.result.error)
                                          else Choose(Selection(c.sys.info.id, e.result.value.crtcID, c.modes[0])))
  {
  }

  lemma Concat3<T>(a: seq<T>, b: seq<T>, c: seq<T>)
    ensures (a + b) + c == a + (b + c)
  {
  }

  /** Where setup's connector loop starts: after the two resources requests. */
  function LoopStart(k: nat): nat {
    k + 2
  }

  /** Modeset.setup: the resources request, then the connector loop. */
  function SetupSpec(K: Kernel, k: nat): (s: Step<Selection>)
    ensures FetchResources(K, k).ops <= s.ops
    ensures s.result.Ok? ==> FetchResources(K, k).result.Ok?
    ensures s.result.Err? ==> s.result.error.Errno? || s.result.error == NoMatchingMode
  {
    var r := FetchResources(K, k);
    if r.result.Err? then
      Step(Err(r.result.error), r.ops)
    else
      var ids := r.result.value.connectors;
      Step(ScanResult(Visits(K, k + 2, ids), 0), r.ops + ScanOps(Visits(K, k + 2, ids), VisitsOps(K, k + 2, ids), 0))
  }

  /** A successful selection comes from the first visit that chooses; every earlier one was skipped. */
  lemma {:induction false} ScanOk(vs: seq<Visit>, i: nat)
    requires i <= |vs| && ScanResult(vs, i).Ok?
    ensures exists j :: i <= j < |vs| && Skipped(vs, i, j) && vs[j] == Choose(ScanResult(vs, i).value)
    decreases |vs| - i
  {
    if vs[i].Choose? {
      assert Skipped(vs, i, i);
    } else {
      ScanOk(vs, i + 1);
      var j :| i + 1 <= j < |vs| && Skipped(vs, i + 1, j) && vs[j] == Choose(ScanResult(vs, i + 1).value);
      assert Skipped(vs, i, j);
    }
  }

  /** Conversely, the first visit that chooses decides the selection. */
  lemma {:induction false} ScanPicksFirst(vs: seq<Visit>, i: nat, j: nat, sel: Selection)
    requires i <= j < |vs| && Skipped(vs, i, j) && vs[j] == Choose(sel)
    ensures ScanResult(vs, i) == Ok(sel)
    decreases j - i
  {
    if i < j {
      assert vs[i].Skip?;
      ScanPicksFirst(vs, i + 1, j, sel);
    }
  }

  /** "no matching mode found" exactly when every visit was skipped. */
  lemma {:induction false} ScanNoMatch(vs: seq<Visit>, i: nat)
    requires i <= |vs| && AbortsWithErrno(vs)
    ensures ScanResult(vs, i) == Err(NoMatchingMode) <==> Skipped(vs, i, |vs|)
    decreases |vs| - i
  {
    if i < |vs| {
      ScanNoMatch(vs, i + 1);
      if !vs[i].Skip? {
        assert !Skipped(vs, i, |vs|);
      }
    }
  }

  /** A failed request aborts the loop with its error, whatever follows. */
  lemma {:induction false} ScanAborts(vs: seq<Visit>, i: nat, j: nat)
    requires i <= j < |vs| && Skipped(vs, i, j) && vs[j].Abort?
    ensures ScanResult(vs, i) == Err(vs[j].error)
    decreases j - i
  {
    if i < j {
      assert vs[i].Skip?;
      ScanAborts(vs, i + 1, j);
    }
  }

  /**
   * Once the loop stops at visit j, the visits after j play no part: two
   * loops that agree up to j give the same result and issue the same requests.
   */
  lemma {:induction false} ScanStopsAt(vs: seq<Visit>, os: seq<seq<Op>>, vs': seq<Visit>, os': seq<seq<Op>>, i: nat, j: nat)
    requires |vs| == |os| && |vs'| == |os'| && i <= j < |vs| && j < |vs'|
    requires vs[..j + 1] == vs'[..j + 1] && os[..j + 1] == os'[..j + 1]
    requires Skipped(vs, i, j) && !vs[j].Skip?
    ensures ScanResult(vs, i) == ScanResult(vs', i)
    ensures ScanOps(vs, os, i) == ScanOps(vs', os', i)
    decreases j - i
  {
    assert vs[i] == vs[..j + 1][i] == vs'[i];
    assert os[i] == os[..j + 1][i] == os'[i];
    if i < j {
      ScanStopsAt(vs, os, vs', os', i + 1, j);
    }
  }

  /** Connector t's visit depends only on the ids up to t. */
  lemma VisitsAgree(K: Kernel, base: nat, ids: seq<uint32>, ids': seq<uint32>, j: nat)
    requires j < |ids| && j < |ids'| && ids[..j + 1] == ids'[..j + 1]
    ensures Visits(K, base, ids)[..j + 1] == Visits(K, base, ids')[..j + 1]
    ensures VisitsOps(K, base, ids)[..j + 1] == VisitsOps(K, base, ids')[..j + 1]
  {
    forall t | 0 <= t <= j
      ensures ids[t] == ids'[t] && VisitAt(K, base, ids, t) == VisitAt(K, base, ids', t)
      ensures VisitOps(K, base, ids, t) == VisitOps(K, base, ids', t)
    {
      assert ids[t] == ids[..j + 1][t];
    }
  }

  /**
   * Connectors after the one the loop stops at are never requested:
   * replacing them changes neither Setup's result nor its requests.
   */
  lemma SetupIgnoresLater(K: Kernel, base: nat, ids: seq<uint32>, ids': seq<uint32>, j: nat)
    requires j < |ids| && j < |ids'| && ids[..j + 1] == ids'[..j + 1]
    requires Skipped(Visits(K, base, ids), 0, j) && !Visits(K, base, ids)[j].Skip?
    ensures ScanResult(Visits(K, base, ids), 0) == ScanResult(Visits(K, base, ids'), 0)
    ensures ScanOps(Visits(K, base, ids), VisitsOps(K, base, ids), 0) == ScanOps(Visits(K, base, ids'), VisitsOps(K, base, ids'), 0)
  {
    VisitsAgree(K, base, ids, ids', j);
    ScanStopsAt(Visits(K, base, ids), VisitsOps(K, base, ids), Visits(K, base, ids'), VisitsOps(K, base, ids'), 0, j);
  }

  /**
   * The "has modes" filter never rejects anything: a fetched connector always
   * carries at least one mode slot, so only the connection state and the
   * encoder id decide.
   */
  lemma FetchedConnectorUsable(K: Kernel, k: nat, id: uint32)
    requires FetchConnector(K, k, id).result.Ok?
    ensures var c := FetchConnector(K, k, id).result.value;
      Usable(c) <==> c.sys.info.connection == Connected && c.sys.info.encoderID != 0
  {
  }

  /** Connector t was fetched and fails the filter. */
  predicate PassedOver(K: Kernel, base: nat, ids: seq<uint32>, t: nat)
    requires t < |ids|
  {
    ConnectorAt(K, base, ids, t).Ok? && !Usable(ConnectorAt(K, base, ids, t).value)
  }

  /** Connectors 0..j-1 were all fetched and all fail the filter. */
  predicate AllPassedOver(K: Kernel, base: nat, ids: seq<uint32>, j: nat)
    requires j <= |ids|
  {
    forall t :: 0 <= t < j ==> PassedOver(K, base, ids, t)
  }

  /** A visit is skipped exactly when its connector was fetched and fails the filter. */
  lemma VisitSkip(K: Kernel, base: nat, ids: seq<uint32>, t: nat)
    requires t < |ids|
    ensures VisitAt(K, base, ids, t).Skip? <==> PassedOver(K, base, ids, t)
  {
  }

  /**
   * Connector t passes the filter and its encoder is fetched, and sel is
   * that connector's id, the encoder's CRTC and the connector's first mode.
   */
  predicate ChosenAt(K: Kernel, base: nat, ids: seq<uint32>, t: nat, sel: Selection)
    requires t < |ids|
  {
    var c := ConnectorAt(K, base, ids, t);
    && c.Ok? && Usable(c.value)
    && var e := FetchEncoder(K, base + 2 * t + 2, c.value.sys.info.encoderID).result;
    && e.Ok?
    && sel == Selection(c.value.sys.info.id, e.value.crtcID, c.value.modes[0])
  }

  /** Connector j is the first to be chosen: all before it were passed over. */
  predicate FirstChosen(K: Kernel, base: nat, ids: seq<uint32>, j: nat, sel: Selection)
    requires j < |ids|
  {
    AllPassedOver(K, base, ids, j) && ChosenAt(K, base, ids, j, sel)
  }

  /** A visit chooses sel exactly when its connector is chosen with sel. */
  lemma VisitChoose(K: Kernel, base: nat, ids: seq<uint32>, t: nat, sel: Selection)
    requires t < |ids|
    ensures VisitAt(K, base, ids, t) == Choose(sel) <==> ChosenAt(K, base, ids, t, sel)
  {
  }

  /** Visits 0..j-1 were skipped exactly when connectors 0..j-1 were passed over. */
  lemma SkippedPassedOver(K: Kernel, base: nat, ids: seq<uint32>, j: nat)
    requires j <= |ids|
    ensures Skipped(Visits(K, base, ids), 0, j) <==> AllPassedOver(K, base, ids, j)
  {
    forall t | 0 <= t < j
      ensures Visits(K, base, ids)[t].Skip? <==> PassedOver(K, base, ids, t)
    {
      VisitSkip(K, base, ids, t);
    }
  }

  /** A successful connector loop selected the first connector that is chosen. */
  lemma ScanSelectsFirstUsable(K: Kernel, base: nat, ids: seq<uint32>)
    requires ScanResult(Visits(K, base, ids), 0).Ok?
    ensures exists j :: 0 <= j < |ids| && FirstChosen(K, base, ids, j, ScanResult(Visits(K, base, ids), 0).value)
  {
    var vs := Visits(K, base, ids);
    var sel := ScanResult(vs, 0).value;
    ScanOk(vs, 0);
    var j :| 0 <= j < |vs| && Skipped(vs, 0, j) && vs[j] == Choose(sel);
    SkippedPassedOver(K, base, ids, j);
    VisitChoose(K, base, ids, j, sel);
    assert FirstChosen(K, base, ids, j, sel);
  }

  /** Conversely, the first connector that is chosen decides the connector loop. */
  lemma ScanPicksFirstUsable(K: Kernel, base: nat, ids: seq<uint32>, j: nat, sel: Selection)
    requires j < |ids| && FirstChosen(K, base, ids, j, sel)
    ensures ScanResult(Visits(K, base, ids), 0) == Ok(sel)
  {
    SkippedPassedOver(K, base, ids, j);
    VisitChoose(K, base, ids, j, sel);
    ScanPicksFirst(Visits(K, base, ids), 0, j, sel);
  }

  /**
   * Setup succeeds with sel exactly when, among the connectors GetResources
   * listed, some connector is the first chosen with sel: it passes the
   * connected / has-modes / has-encoder filter, its encoder is fetched, every
   * earlier connector was fetched and failed the filter, and sel is its id,
   * its encoder's CRTC and its first mode.
   */
  lemma SetupSelectsFirstUsable(K: Kernel, k: nat, sel: Selection)
    requires FetchResources(K, k).result.Ok?
    ensures var ids := FetchResources(K, k).result.value.connectors;
      SetupSpec(K, k).result == Ok(sel) <==>
        exists j :: 0 <= j < |ids| && FirstChosen(K, LoopStart(k), ids, j, sel)
  {
    var ids := FetchResources(K, k).result.value.connectors;
    var base := LoopStart(k);
    assert SetupSpec(K, k).result == ScanResult(Visits(K, base, ids), 0);
    if ScanResult(Visits(K, base, ids), 0) == Ok(sel) {
      ScanSelectsFirstUsable(K, base, ids);
    }
    if exists j :: 0 <= j < |ids| && FirstChosen(K, base, ids, j, sel) {
      var j :| 0 <= j < |ids| && FirstChosen(K, base, ids, j, sel);
      ScanPicksFirstUsable(K, base, ids, j, sel);
    }
  }

  /**
   * After a successful resources request, setup fails with "no matching
   * mode found" exactly when every listed connector was fetched and failed
   * the filter.
   */
  lemma SetupNoMatch(K: Kernel, k: nat)
    requires FetchResources(K, k).result.Ok?
    ensures var ids := FetchResources(K, k).result.value.connectors;
      SetupSpec(K, k).result == Err(NoMatchingMode) <==> AllPassedOver(K, LoopStart(k), ids, |ids|)
  {
    var ids := FetchResources(K, k).result.value.connectors;
    var base := LoopStart(k);
    assert SetupSpec(K, k).result == ScanResult(Visits(K, base, ids), 0);
    VisitsAbortWithErrno(K, base, ids);
    ScanNoMatch(Visits(K, base, ids), 0);
    SkippedPassedOver(K, base, ids, |ids|);
  }

  /** The requests CreateFB issues when none fails, in order. */
  function CreateFBPlan(K: Kernel, k: nat, mode: Mode, conn: uint32, crtc: uint32): (p: seq<Op>)
    ensures |p| == 5
  {
    var w := mode.hdisplay as uint32;
    var h := mode.vdisplay as uint32;
    var fb := K.dumb(k);
    [ Ioctl(IOCTLModeCreateDumb, CreateDumbArg(FB(h, w, 32, 0, 0, 0, 0))),
      Ioctl(IOCTLModeAddFB, FBCmdArg(SysFBCmd(0, w, h, fb.pitch, 32, 24, fb.handle))),
      Ioctl(IOCTLModeMapDumb, MapDumbArg(SysMapDumb(fb.handle, 0, 0))),
      Mmap(Int64(K.mapDumb(k + 2).offset), Int64(fb.size)),
      Ioctl(IOCTLModeSetCrtc, CrtcArg(SetCrtcRecord(crtc, K.fbCmd(k + 1).fbID, 0, 0, To([conn]), 1, Some(mode)))) ]
  }

  /**
   * Modeset.CreateFB: create a 32-bpp dumb buffer of the mode's size, add a
   * framebuffer of depth 24 over it, map it, and show it on the CRTC.
   */
  function CreateFBSpec(K: Kernel, k: nat, mode: Mode, conn: uint32, crtc: uint32): (s: Step<FramebufferInfo>)
    ensures 1 <= |s.ops| <= 5 && s.ops == CreateFBPlan(K, k, mode, conn, crtc)[..|s.ops|]
    ensures s.result.Ok? <==> |s.ops| == 5 && AllOk(K, k, 5)
    ensures AllOk(K, k, |s.ops| - 1)
    ensures s.result.Err? ==>
      || (K.errno(k + |s.ops| - 1) != 0 && s.result.error == Errno(K.errno(k + |s.ops| - 1)))
      || (|s.ops| == 3 && K.errno(k + 2) == 0 && Int64(K.dumb(k).size) <= 0 && s.result.error == Errno(EINVAL))
    ensures s.result.Ok? ==> s.result.value == FramebufferInfo(
      K.fbCmd(k + 1).fbID, mode.hdisplay as uint32, mode.vdisplay as uint32,
      K.dumb(k).pitch, K.dumb(k).handle, Int64(K.dumb(k).size))
  {
    var plan := CreateFBPlan(K, k, mode, conn, crtc);
    var fb := K.dumb(k);
    if K.errno(k) != 0 then
      Step(Err(Errno(K.errno(k))), plan[..1])
    else if K.errno(k + 1) != 0 then
      Step(Err(Errno(K.errno(k + 1))), plan[..2])
    else if K.errno(k + 2) != 0 then
      Step(Err(Errno(K.errno(k + 2))), plan[..3])
    else if Int64(fb.size) <= 0 then
      Step(Err(Errno(EINVAL)), plan[..3])
    else if K.errno(k + 3) != 0 then
      Step(Err(Errno(K.errno(k + 3))), plan[..4])
    else if K.errno(k + 4) != 0 then
      assert !CallOk(K, k, 4);
      Step(Err(Errno(K.errno(k + 4))), plan)
    else
      Step(Ok(FramebufferInfo(K.fbCmd(k + 1).fbID, mode.hdisplay as uint32, mode.vdisplay as uint32,
                              fb.pitch, fb.handle, Int64(fb.size))), plan)
  }

  /**
   * Run a fixed list of requests in order, stopping at the first that fails;
   * the outcome is that failure, or success if none fails.
   */
  function Sequence(K: Kernel, k: nat, plan: seq<Op>): (t: Trail)
    ensures |t.ops| <= |plan| && t.ops == plan[..|t.ops|]
    ensures |t.ops| > 0 ==> AllOk(K, k, |t.ops| - 1)
    ensures t.outcome.Pass? <==> |t.ops| == |plan| && AllOk(K, k, |plan|)
    ensures t.outcome.Fail? ==> |t.ops| >= 1 && t.outcome.error == Errno(K.errno(k + |t.ops| - 1)) && K.errno(k + |t.ops| - 1) != 0
    decreases |plan|
  {
    if plan == [] then
      Trail(Pass, [])
    else if K.errno(k) != 0 then
      assert !CallOk(K, k, 0);
      Trail(Fail(Errno(K.errno(k))), [plan[0]])
    else
      var rest := Sequence(K, k + 1, plan[1..]);
      AllOkShift(K, k, |plan| - 1);
      AllOkShift(K, k, if |rest.ops| > 0 then |rest.ops| - 1 else 0);
      Trail(rest.outcome, [plan[0]] + rest.ops)
  }

  /**
   * Running two lists one after the other is running their concatenation:
   * the second list is started only if the first passes.
   */
  lemma {:induction false} SequenceAppend(K: Kernel, k: nat, p: seq<Op>, q: seq<Op>)
    ensures var a := Sequence(K, k, p);
      var b := Sequence(K, k + |p|, q);
      Sequence(K, k, p + q) == if a.outcome.Fail? then a else Trail(b.outcome, p + b.ops)
    decreases |p|
  {
    if p == [] {
      assert p + q == q;
    } else if K.errno(k) != 0 {
      assert (p + q)[0] == p[0];
    } else {
      assert (p + q)[1..] == p[1..] + q;
      SequenceAppend(K, k + 1, p[1..], q);
      var b := Sequence(K, k + |p|, q);
      if Sequence(K, k + 1, p[1..]).outcome.Pass? {
        Concat3([p[0]], p[1..], b.ops);
        assert [p[0]] + p[1..] == p;
      }
    }
  }

  /** The teardown of Modeset.DestroyFB: unmap, remove the framebuffer, destroy the dumb buffer. */
  function DestroyFBPlan(f: Framebuffer): (p: seq<Op>)
    ensures |p| == 3
  {
    [Munmap(f.buffer), Ioctl(IOCTLModeRmFB, HandleArg(f.id)), Ioctl(IOCTLModeDestroyDumb, HandleArg(f.handle))]
  }

  /** Modeset.WaitFlip: a page flip with the event flag, then one event read if the flip was accepted. */
  function WaitFlipSpec(K: Kernel, k: nat, crtc: uint32, fb: uint32): (t: Trail)
    ensures |t.ops| == if K.errno(k) != 0 then 1 else 2
    ensures t.ops[0] == Ioctl(IOCTLModeCrtcPageFlip, PageFlipArg(SysPageFlip(crtc, fb, 0x01, 0, 0)))
    ensures |t.ops| == 2 ==> t.ops[1] == Read(DrmEvent.ReadBufferSize)
    ensures K.errno(k) != 0 ==> t.outcome == Fail(Errno(K.errno(k)))
    ensures K.errno(k) == 0 ==> t.outcome == ReadEventAt(K, k + 1)
  {
    var flip := Ioctl(IOCTLModeCrtcPageFlip, PageFlipArg(SysPageFlip(crtc, fb, 0x01, 0, 0)));
    if K.errno(k) != 0 then
      Trail(Fail(Errno(K.errno(k))), [flip])
    else
      Trail(ReadEventAt(K, k + 1), [flip, Read(DrmEvent.ReadBufferSize)])
  }

  /** The output state of an open card. */
  class Modeset {
    const card: Card
    var mode: Option<Mode>
    var conn: uint32
    var crtc: uint32

    constructor (card: Card)
      ensures this.card == card && mode == None && conn == 0 && crtc == 0
    {
      this.card := card;
      mode := None;
      conn := 0;
      crtc := 0;
    }

    /**
     * Modeset.setup: fetch the resources, run the connector loop, and keep
     * the connector, CRTC and first mode it selects.
     */
    method Setup() returns (r: Outcome)
      modifies this, card
      ensures var s := SetupSpec(card.kernel, |old(card.trace)|);
        && card.trace == old(card.trace) + s.ops
        && (r.Pass? <==> s.result.Ok?)
        && (s.result.Err? ==> r == Fail(s.result.error) && mode == old(mode) && conn == old(conn) && crtc == old(crtc))
        && (s.result.Ok? ==> mode == Some(s.result.value.mode) && conn == s.result.value.conn && crtc == s.result.value.crtc)
    {
      var res := card.GetResources();
      if res.Err? {
        return Fail(res.error);
      }
      ghost var start := card.trace;
      var sel := SelectConnector(res.value.connectors);
      Concat3(old(card.trace), start[|old(card.trace)|..], card.trace[|start|..]);
      if sel.Err? {
        return Fail(sel.error);
      }
      conn := sel.value.conn;
      crtc := sel.value.crtc;
      mode := Some(sel.value.mode);
      return Pass;
    }

    /** The connector loop of Modeset.setup over the given connector ids. */
    method SelectConnector(ids: seq<uint32>) returns (r: Result<Selection>)
      modifies card
      ensures var base := |old(card.trace)|;
        && r == ScanResult(Visits(card.kernel, base, ids), 0)
        && card.trace == old(card.trace) + ScanOps(Visits(card.kernel, base, ids), VisitsOps(card.kernel, base, ids), 0)
    {
      var K := card.kernel;
      var base := |card.trace|;
      ghost var vs := Visits(K, base, ids);
      ghost var os := VisitsOps(K, base, ids);
      var i := 0;
      while i < |ids|
        invariant 0 <= i <= |ids| && |card.trace| == base + 2 * i
        invariant ScanResult(vs, i) == ScanResult(vs, 0)
        invariant card.trace + ScanOps(vs, os, i) == old(card.trace) + ScanOps(vs, os, 0)
      {
        ghost var before := card.trace;
        ghost var f := FetchConnector(K, base + 2 * i, ids[i]);
        VisitCases(K, base, ids, i);
        assert os[i] == VisitOps(K, base, ids, i) && vs[i] == VisitAt(K, base, ids, i);
        var c := card.GetConnector(ids[i]);
        assert c == f.result && card.trace == before + f.ops;
        if c.Err? {
          assert vs[i] == Abort(c.error) && card.trace == before + os[i];
          return Err(c.error);
        }
        var connector := c.value;
        if connector.sys.info.connection != Connected {
          // an unconnected connector is passed over
        } else if |connector.modes| == 0 {
          // a connector without modes is passed over
        } else if connector.sys.info.encoderID == 0 {
          // a connector without an encoder is passed over
        } else {
          assert Usable(connector);
          ghost var fe := FetchEncoder(K, base + 2 * i + 2, connector.sys.info.encoderID);
          ghost var middle := card.trace;
          var e := card.GetEncoder(connector.sys.info.encoderID);
          assert e == fe.result && card.trace == middle + fe.ops;
          Concat3(before, f.ops, fe.ops);
          assert card.trace == before + os[i];
          if e.Err? {
            assert vs[i] == Abort(e.error);
            return Err(e.error);
          }
          assert vs[i] == Choose(Selection(connector.sys.info.id, e.value.crtcID, connector.modes[0]));
          return Ok(Selection(connector.sys.info.id, e.value.crtcID, connector.modes[0]));
        }
        assert !Usable(connector);
        assert vs[i] == Skip && card.trace == before + os[i];
        assert ScanOps(vs, os, i) == os[i] + ScanOps(vs, os, i + 1);
        Concat3(before, os[i], ScanOps(vs, os, i + 1));
        i := i + 1;
      }
      return Err(NoMatchingMode);
    }

    /** Modeset.CreateFB. Calling it before Setup succeeded dereferences a nil mode. */
    method CreateFB() returns (r: Result<Framebuffer>)
      requires mode.Some?
      modifies card
      ensures var s := CreateFBSpec(card.kernel, |old(card.trace)|, mode.value, conn, crtc);
        && card.trace == old(card.trace) + s.ops
        && (r.Ok? <==> s.result.Ok?)
        && (r.Err? ==> r.error == s.result.error)
        && (r.Ok? ==> InfoOf(r.value) == s.result.value && fresh(r.value.buffer))
    {
      var m := mode.value;
      var w := m.hdisplay as uint32;
      var h := m.vdisplay as uint32;
      ghost var K, k := card.kernel, |card.trace|;
      ghost var plan := CreateFBPlan(K, k, m, conn, crtc);
      ghost var s := CreateFBSpec(K, k, m, conn, crtc);
      var fb := card.CreateDumb(w, h, 32);
      assert card.trace == old(card.trace) + plan[..1];
      if fb.Err? {
        assert s.ops == plan[..1];
        return Err(fb.error);
      }
      var fbID := card.AddFB(w, h, 24, 32, fb.value.pitch, fb.value.handle);
      assert card.trace == old(card.trace) + plan[..2];
      if fbID.Err? {
        assert s.ops == plan[..2];
        return Err(fbID.error);
      }
      var offset := card.MapDumb(fb.value.handle);
      assert card.trace == old(card.trace) + plan[..3];
      if offset.Err? {
        assert s.ops == plan[..3];
        return Err(offset.error);
      }
      var buf := card.Map(Int64(offset.value), Int64(fb.value.size));
      if buf.Err? {
        assert s.ops == card.trace[k..];
        return Err(buf.error);
      }
      assert card.trace == old(card.trace) + plan[..4];
      var shown := card.SetCrtc(crtc, fbID.value, 0, 0, To([conn]), 1, mode);
      assert card.trace == old(card.trace) + plan;
      if shown.Fail? {
        return Err(shown.error);
      }
      return Ok(Framebuffer(fbID.value, w, h, buf.value, fb.value.pitch, fb.value.handle));
    }

    /** Modeset.DestroyFB. */
    method DestroyFB(f: Framebuffer) returns (r: Outcome)
      modifies card
      ensures var t := Sequence(card.kernel, |old(card.trace)|, DestroyFBPlan(f));
        card.trace == old(card.trace) + t.ops && r == t.outcome
    {
      ghost var k := |card.trace|;
      ghost var plan := DestroyFBPlan(f);
      var u := card.Unmap(f.buffer);
      if u.Fail? {
        return u;
      }
      var d := card.RmFB(f.id);
      if d.Fail? {
        assert Sequence(card.kernel, k + 1, plan[1..]) == Trail(d, [plan[1]]);
        return d;
      }
      var e := card.DestroyDumb(f.handle);
      assert Sequence(card.kernel, k + 2, plan[2..]).ops == [plan[2]];
      assert Sequence(card.kernel, k + 1, plan[1..]).ops == [plan[1], plan[2]];
      return e;
    }

    /** Modeset.WaitFlip. */
    method WaitFlip(fb: uint32) returns (r: Outcome)
      modifies card
      ensures var t := WaitFlipSpec(card.kernel, |old(card.trace)|, crtc, fb);
        card.trace == old(card.trace) + t.ops && r == t.outcome
    {
      var flip := card.ModePageFlip(fb, crtc, 0x01);
      if flip.Fail? {
        return flip;
      }
      r := card.ReadEvent();
    }
  }

  /** NewModeset, given the opened card: a fresh Modeset that has been through Setup. */
  method NewModeset(card: Card) returns (r: Result<Modeset>)
    modifies card
    ensures var s := SetupSpec(card.kernel, |old(card.trace)|);
      && card.trace == old(card.trace) + s.ops
      && (r.Ok? <==> s.result.Ok?)
      && (r.Err? ==> r.error == s.result.error)
      && (r.Ok? ==> fresh(r.value) && r.value.card == card && r.value.mode == Some(s.result.value.mode)
                    && r.value.conn == s.result.value.conn && r.value.crtc == s.result.value.crtc)
  {
    var m := new Modeset(card);
    var err := m.Setup();
    if err.Fail? {
      return Err(err.error);
    }
    return Ok(m);
  }
}
