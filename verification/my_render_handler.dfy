/**
 * The off-screen render handler (`MyRenderHandler`): answers the engine's
 * size queries from its own fields and hands each paint notification to
 * the host callback that matches the configured paint path.
 *
 * Pixel buffers and shared surfaces are opaque tokens; a host callback is
 * present or empty, and what it does with a frame is outside the model.
 */
module MyRenderHandler {
  import opened CefTypes

  /** `CefRenderHandler::PaintElementType`. */
  datatype PaintElementType = ViewElement | PopupElement

  /** An engine-owned CPU pixel buffer, valid only during the paint callback. */
  datatype PixelBuffer = PixelBuffer(id: nat)

  /** An engine-owned GPU shared surface (`IOSurfaceRef`). */
  datatype SharedSurface = SharedSurface(id: nat)

  /** `CefAcceleratedPaintInfo`. */
  datatype AcceleratedPaintInfo = AcceleratedPaintInfo(sharedTextureIoSurface: SharedSurface, format: int)

  /** `CefScreenInfo`. */
  datatype ScreenInfo = ScreenInfo(
    deviceScaleFactor: real,
    depth: int,
    depthPerComponent: int,
    isMonochrome: bool,
    rect: Rect,
    availableRect: Rect)

  /** What reaches a host callback. */
  datatype Delivery =
    | SoftwareFrame(elementType: PaintElementType, dirtyRects: seq<Rect>, buffer: PixelBuffer, width: int, height: int)
    | AcceleratedFrame(elementType: PaintElementType, dirtyRects: seq<Rect>, surface: SharedSurface)
    | PopupShown(show: bool)
    | PopupSized(rect: Rect)

  /**
   * The outcome of a notification: handed to a callback, held back by the
   * handler's own guard, or an invocation of an empty callback (which throws
   * `std::bad_function_call`).
   */
  datatype Forwarding = Forwarded(delivery: Delivery) | Suppressed | EmptyCallbackInvoked

  /** The handler's fields; each callback is either set or empty. */
  datatype RenderHandler = RenderHandler(
    acceleratedRendering: bool,
    width: int,
    height: int,
    pixelDensity: int,
    selectedText: string,
    hasRenderingCallback: bool,
    hasAcceleratedRenderingCallback: bool,
    hasPopupShowCallback: bool,
    hasPopupSizedCallback: bool)

  /** `GetViewRect`: the view spans the handler's current size from the origin. */
  function GetViewRect(h: RenderHandler): (rect: Rect)
    ensures rect.x == 0 && rect.y == 0
    ensures rect.width == h.width && rect.height == h.height
  {
    Rect(0, 0, h.width, h.height)
  }

  /**
   * `GetScreenInfo`: fills in the scale factor and both rectangles of the
   * caller's screen info, leaves its other fields as they were, and always
   * reports that it answered.
   */
  function GetScreenInfo(h: RenderHandler, info: ScreenInfo): (r: (ScreenInfo, bool))
    ensures r.1
    ensures r.0.deviceScaleFactor == h.pixelDensity as real
    ensures r.0.rect == r.0.availableRect == GetViewRect(h)
    ensures r.0.depth == info.depth && r.0.depthPerComponent == info.depthPerComponent
    ensures r.0.isMonochrome == info.isMonochrome
  {
    var scale := h.pixelDensity as real;
    (info.(deviceScaleFactor := scale,
           rect := Rect(0, 0, h.width, h.height),
           availableRect := Rect(0, 0, h.width, h.height)),
     true)
  }

  /** `OnAcceleratedPaint`: forwards the shared surface only on the accelerated path with a callback set. */
  function OnAcceleratedPaint(h: RenderHandler, t: PaintElementType, dirtyRects: seq<Rect>, info: AcceleratedPaintInfo): (r: Forwarding)
    ensures r.Forwarded? <==> h.acceleratedRendering && h.hasAcceleratedRenderingCallback
    ensures r.Forwarded? ==> r.delivery == AcceleratedFrame(t, dirtyRects, info.sharedTextureIoSurface)
    ensures !r.EmptyCallbackInvoked?
  {
    var surface := info.sharedTextureIoSurface;
    if h.acceleratedRendering && h.hasAcceleratedRenderingCallback then
      Forwarded(AcceleratedFrame(t, dirtyRects, surface))
    else
      Suppressed
  }

  /** `OnPaint`: forwards the pixel buffer only on the software path with a callback set. */
  function OnPaint(h: RenderHandler, t: PaintElementType, dirtyRects: seq<Rect>, buffer: PixelBuffer, width: int, height: int): (r: Forwarding)
    ensures r.Forwarded? <==> !h.acceleratedRendering && h.hasRenderingCallback
    ensures r.Forwarded? ==> r.delivery == SoftwareFrame(t, dirtyRects, buffer, width, height)
    ensures !r.EmptyCallbackInvoked?
  {
    if !h.acceleratedRendering && h.hasRenderingCallback then
      Forwarded(SoftwareFrame(t, dirtyRects, buffer, width, height))
    else
      Suppressed
  }

  /** `OnPopupShow`: forwarded with no guard, so an empty callback is invoked anyway. */
  function OnPopupShow(h: RenderHandler, show: bool): (r: Forwarding)
    ensures !r.Suppressed?
    ensures h.hasPopupShowCallback <==> r == Forwarded(PopupShown(show))
    ensures !h.hasPopupShowCallback ==> r == EmptyCallbackInvoked
  {
    if h.hasPopupShowCallback then Forwarded(PopupShown(show)) else EmptyCallbackInvoked
  }

  /** `OnPopupSize`: forwarded with no guard, so an empty callback is invoked anyway. */
  function OnPopupSize(h: RenderHandler, rect: Rect): (r: Forwarding)
    ensures !r.Suppressed?
    ensures h.hasPopupSizedCallback <==> r == Forwarded(PopupSized(rect))
    ensures !h.hasPopupSizedCallback ==> r == EmptyCallbackInvoked
  {
    if h.hasPopupSizedCallback then Forwarded(PopupSized(rect)) else EmptyCallbackInvoked
  }

  /** `OnTextSelectionChanged`: remembers the selected text and nothing else. */
  function OnTextSelectionChanged(h: RenderHandler, selectedText: string, selectedRange: Range): (h': RenderHandler)
    ensures h'.selectedText == selectedText
    ensures h'.(selectedText := h.selectedText) == h
  {
    h.(selectedText := selectedText)
  }

  /** Whatever arrives, at most one of the two paint paths forwards. */
  lemma AtMostOnePaintPath(h: RenderHandler, t: PaintElementType, dirtyRects: seq<Rect>,
                           buffer: PixelBuffer, width: int, height: int, info: AcceleratedPaintInfo)
    ensures !(OnPaint(h, t, dirtyRects, buffer, width, height).Forwarded?
              && OnAcceleratedPaint(h, t, dirtyRects, info).Forwarded?)
  {
  }

  /** The view rectangle and both screen rectangles agree, whatever the screen info held before. */
  lemma ViewRectMatchesScreenInfo(h: RenderHandler, info: ScreenInfo)
    ensures GetScreenInfo(h, info).0.rect == GetViewRect(h)
    ensures GetScreenInfo(h, info).0.availableRect == GetViewRect(h)
  {
  }
}
