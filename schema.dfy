/**
 * The `Request` message of the canvas protocol, as known to the receiver after
 * decoding, and the requests the four `send*` methods of `PubsubCanvas` build.
 * Byte-level protobuf encoding is not part of this model: a decoded request is a
 * value of `Request`.
 */
module Schema {
  import opened Wrappers

  /** The values of the `Request.Type` enum. */
  const START_CANVAS_OPERATE: int := 0
  const END_CANVAS_OPERATE: int := 1
  const DOING_CANVAS_OPERATE: int := 2
  const DRAW_CANVAS_OPERATE: int := 3

  datatype StartCanvasOperate = StartCanvasOperate(startX: int, startY: int)
  datatype DoingCanvasOperate = DoingCanvasOperate(nextX: int, nextY: int)
  datatype DrawCanvasOperate = DrawCanvasOperate(oldX: int, oldY: int, nextX: int, nextY: int)

  /**
   * A decoded request: `tag` is the required `type` field (any enum value the
   * decoder hands over), the other three are the optional payload sub-messages.
   */
  datatype Request = Request(
    tag: int,
    startCanvasOperate: Option<StartCanvasOperate>,
    doingCanvasOperate: Option<DoingCanvasOperate>,
    drawCanvasOperate: Option<DrawCanvasOperate>)

  /** What a request asks the receiver to do, once its payload has been read. */
  datatype Operation =
    | StartOp(startX: int, startY: int)
    | EndOp
    | DoingOp(nextX: int, nextY: int)
    | DrawOp(oldX: int, oldY: int, nextX: int, nextY: int)

  /**
   * The reading the message handler performs: the switch on `type` and the field
   * accesses into that type's payload. `None` when the tag matches no case (the
   * `default` branch) or when the payload of the matched case is absent (reading a
   * coordinate of it throws, and the handler's catch swallows the error).
   * Only a known tag is ever read, and END is read whatever payloads it carries.
   */
  function Read(r: Request): (op: Option<Operation>)
    ensures op.Some? ==> START_CANVAS_OPERATE <= r.tag <= DRAW_CANVAS_OPERATE
    ensures op == Some(EndOp) <==> r.tag == END_CANVAS_OPERATE
  {
    if r.tag == START_CANVAS_OPERATE then
      match r.startCanvasOperate
      case Some(p) => Some(StartOp(p.startX, p.startY))
      case None => None
    else if r.tag == END_CANVAS_OPERATE then
      Some(EndOp)
    else if r.tag == DOING_CANVAS_OPERATE then
      match r.doingCanvasOperate
      case Some(p) => Some(DoingOp(p.nextX, p.nextY))
      case None => None
    else if r.tag == DRAW_CANVAS_OPERATE then
      match r.drawCanvasOperate
      case Some(p) => Some(DrawOp(p.oldX, p.oldY, p.nextX, p.nextY))
      case None => None
    else
      None
  }

  /** A request with a known tag that carries that tag's payload and no other. */
  predicate WellFormed(r: Request) {
    && START_CANVAS_OPERATE <= r.tag <= DRAW_CANVAS_OPERATE
    && (r.startCanvasOperate.Some? <==> r.tag == START_CANVAS_OPERATE)
    && (r.doingCanvasOperate.Some? <==> r.tag == DOING_CANVAS_OPERATE)
    && (r.drawCanvasOperate.Some? <==> r.tag == DRAW_CANVAS_OPERATE)
  }

  /** The request built by `sendStartCanvasOperateRequest`. */
  function StartCanvasOperateRequest(startX: int, startY: int): (r: Request)
    ensures WellFormed(r) && r.tag == START_CANVAS_OPERATE
    ensures Read(r) == Some(StartOp(startX, startY))
  {
    Request(START_CANVAS_OPERATE, Some(StartCanvasOperate(startX, startY)), None, None)
  }

  /** The request built by `sendEndCanvasOperateRequest`: a bare tag. */
  function EndCanvasOperateRequest(): (r: Request)
    ensures WellFormed(r) && r.tag == END_CANVAS_OPERATE
    ensures Read(r) == Some(EndOp)
  {
    Request(END_CANVAS_OPERATE, None, None, None)
  }

  /** The request built by `sendDoingCanvasOperate`. */
  function DoingCanvasOperateRequest(nextX: int, nextY: int): (r: Request)
    ensures WellFormed(r) && r.tag == DOING_CANVAS_OPERATE
    ensures Read(r) == Some(DoingOp(nextX, nextY))
  {
    Request(DOING_CANVAS_OPERATE, None, Some(DoingCanvasOperate(nextX, nextY)), None)
  }

  /** The request built by `sendDrawCanvasOperate`. */
  function DrawCanvasOperateRequest(oldX: int, oldY: int, nextX: int, nextY: int): (r: Request)
    ensures WellFormed(r) && r.tag == DRAW_CANVAS_OPERATE
    ensures Read(r) == Some(DrawOp(oldX, oldY, nextX, nextY))
  {
    Request(DRAW_CANVAS_OPERATE, None, None, Some(DrawCanvasOperate(oldX, oldY, nextX, nextY)))
  }

  /** The outbound request for an operation: the `send*` method that matches it. */
  function Build(op: Operation): Request {
    match op
    case StartOp(x, y) => StartCanvasOperateRequest(x, y)
    case EndOp => EndCanvasOperateRequest()
    case DoingOp(x, y) => DoingCanvasOperateRequest(x, y)
    case DrawOp(ox, oy, nx, ny) => DrawCanvasOperateRequest(ox, oy, nx, ny)
  }

  /** Every request a sender builds is well formed and reads back as the operation it was built from. */
  lemma ReadBuild(op: Operation)
    ensures WellFormed(Build(op))
    ensures Read(Build(op)) == Some(op)
  {
  }

  /** Conversely, every well-formed request is exactly the one some `send*` method builds. */
  lemma BuildRead(r: Request)
    requires WellFormed(r)
    ensures Read(r).Some?
    ensures Build(Read(r).value) == r
  {
  }

  /**
   * The receiver ignores a request exactly when its tag is none of the four enum
   * values, or the payload its tag needs is absent.
   */
  lemma ReadFails(r: Request)
    ensures Read(r).None? <==>
      || r.tag < START_CANVAS_OPERATE
      || r.tag > DRAW_CANVAS_OPERATE
      || (r.tag == START_CANVAS_OPERATE && r.startCanvasOperate.None?)
      || (r.tag == DOING_CANVAS_OPERATE && r.doingCanvasOperate.None?)
      || (r.tag == DRAW_CANVAS_OPERATE && r.drawCanvasOperate.None?)
  {
  }

  /**
   * The receiver reads only the payload its tag names: payloads of other tags that
   * a sender might add do not change what is read.
   */
  lemma ReadIgnoresOtherPayloads(r: Request, r': Request)
    requires r.tag == r'.tag
    requires r.tag == START_CANVAS_OPERATE ==> r.startCanvasOperate == r'.startCanvasOperate
    requires r.tag == DOING_CANVAS_OPERATE ==> r.doingCanvasOperate == r'.doingCanvasOperate
    requires r.tag == DRAW_CANVAS_OPERATE ==> r.drawCanvasOperate == r'.drawCanvasOperate
    ensures Read(r) == Read(r')
  {
  }
}
