/**
 * Cursor-shape translation (`MyClient::OnCursorChange`): the engine's
 * semantic cursor type onto the immediate-mode UI library's smaller set
 * of system cursors.
 */
module Cursor {

  /** `cef_cursor_type_t`. */
  datatype CursorType =
    | Pointer | Cross | Hand | IBeam | Wait | Help
    | EastResize | NorthResize | NorthEastResize | NorthWestResize
    | SouthResize | SouthEastResize | SouthWestResize | WestResize
    | NorthSouthResize | EastWestResize | NorthEastSouthWestResize | NorthWestSouthEastResize
    | ColumnResize | RowResize
    | MiddlePanning | EastPanning | NorthPanning | NorthEastPanning | NorthWestPanning
    | SouthPanning | SouthEastPanning | SouthWestPanning | WestPanning
    | Move | VerticalText | Cell | ContextMenu | Alias | Progress | NoDrop | Copy
    | NoCursor | NotAllowed | ZoomIn | ZoomOut | Grab | Grabbing
    | MiddlePanningVertical | MiddlePanningHorizontal | Custom
    | DndNone | DndMove | DndCopy | DndLink

  /** `ImGuiMouseCursor`: the cursors the UI library can show. */
  datatype UiCursor = Arrow | TextInput | ResizeAll | ResizeNS | ResizeEW | ResizeNESW | ResizeNWSE | Hand | NotAllowed

  /**
   * The switch of `OnCursorChange`. Each UI cursor is chosen by exactly the
   * engine cursor types listed for it; everything else, including every type
   * the switch does not name, falls back to the arrow.
   */
  function UiCursorFor(t: CursorType): (r: UiCursor)
    ensures r == TextInput <==> t in {IBeam, VerticalText}
    ensures r == UiCursor.Hand <==> t in {CursorType.Hand, Grab, Grabbing}
    ensures r == UiCursor.NotAllowed <==> t in {CursorType.NotAllowed, NoDrop, DndNone}
    ensures r == ResizeNS <==> t in {NorthSouthResize, RowResize, NorthResize, SouthResize}
    ensures r == ResizeEW <==> t in {EastWestResize, ColumnResize, EastResize, WestResize}
    ensures r == ResizeNESW <==> t in {NorthEastSouthWestResize, NorthEastResize, SouthWestResize}
    ensures r == ResizeNWSE <==> t in {NorthWestSouthEastResize, NorthWestResize, SouthEastResize}
    ensures r == ResizeAll <==> t in {Cross, Wait, Move, Cell, DndMove}
  {
    match t
    case Pointer | ContextMenu => Arrow
    case Hand => UiCursor.Hand
    case Cross => ResizeAll
    case IBeam | VerticalText => TextInput
    case Wait => ResizeAll
    case Help => Arrow
    case NorthSouthResize | RowResize | NorthResize | SouthResize => ResizeNS
    case EastWestResize | ColumnResize | EastResize | WestResize => ResizeEW
    case NorthEastSouthWestResize | NorthEastResize | SouthWestResize => ResizeNESW
    case NorthWestSouthEastResize | NorthWestResize | SouthEastResize => ResizeNWSE
    case Move => ResizeAll
    case NotAllowed | NoDrop | DndNone => UiCursor.NotAllowed
    case Cell => ResizeAll
    case Grab | Grabbing => UiCursor.Hand
    case DndCopy | Copy => Arrow
    case DndLink | Alias => Arrow
    case DndMove => ResizeAll
    case ZoomIn | ZoomOut => Arrow
    case Custom => Arrow
    case _ => Arrow
  }

  /** The types the switch names no case for all show the arrow. */
  lemma UnnamedTypesShowArrow(t: CursorType)
    requires t in {MiddlePanning, EastPanning, NorthPanning, NorthEastPanning, NorthWestPanning,
                   SouthPanning, SouthEastPanning, SouthWestPanning, WestPanning,
                   Progress, NoCursor, MiddlePanningVertical, MiddlePanningHorizontal}
    ensures UiCursorFor(t) == Arrow
  {
  }
}
