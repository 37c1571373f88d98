/**
 * The host-drawn context menu (`MyClient::OnBeforeContextMenu` and
 * `MyClient::OnContextMenuCommand`): a list of `{id, label}` entries built
 * from whether the page has a selection, and the replay of a chosen id as
 * an edit command.
 */
module ContextMenu {
  import opened Wrappers
  import opened CefTypes

  /** One entry of the host's menu; a separator has id -1 and an empty title. */
  datatype MenuItem = MenuItem(id: int, title: string)

  const SeparatorId: int := -1
  const UndoId: int := 1001
  const RedoId: int := 1002
  const CutId: int := 1003
  const CopyId: int := 1004
  const PasteId: int := 1005
  const DeleteId: int := 1006
  const SelectAllId: int := 1007

  const Separator: MenuItem := MenuItem(SeparatorId, "")

  /** The menu id under which each command is offered. */
  function MenuId(c: EditCommand): int {
    match c
    case Undo => UndoId
    case Redo => RedoId
    case Cut => CutId
    case Copy => CopyId
    case Paste => PasteId
    case Delete => DeleteId
    case SelectAll => SelectAllId
  }

  /** The label shown for each command. */
  function Title(c: EditCommand): string {
    match c
    case Undo => "Undo"
    case Redo => "Redo"
    case Cut => "Cut"
    case Copy => "Copy"
    case Paste => "Paste"
    case Delete => "Delete"
    case SelectAll => "Select All"
  }

  /** The entry that offers command `c`. */
  function Entry(c: EditCommand): MenuItem {
    MenuItem(MenuId(c), Title(c))
  }

  /**
   * The list `OnBeforeContextMenu` builds. Undo, Redo, Paste and Select All
   * are always offered; Cut, Copy and Delete only with a selection. Two
   * separators split the list into history, clipboard and selection groups.
   */
  function BuildMenu(hasSelection: bool): (items: seq<MenuItem>)
    ensures |items| == if hasSelection then 9 else 6
    ensures items[0] == Entry(Undo) && items[1] == Entry(Redo) && items[2] == Separator
    ensures items[|items| - 2] == Separator && items[|items| - 1] == Entry(SelectAll)
    ensures forall i :: 0 <= i < |items| && items[i].id == SeparatorId ==> items[i].title == ""
    ensures forall i :: 0 <= i < |items| && items[i].id != SeparatorId ==> items[i].title != ""
    ensures Entry(Cut) in items <==> hasSelection
    ensures Entry(Copy) in items <==> hasSelection
    ensures Entry(Delete) in items <==> hasSelection
    ensures Entry(Paste) in items
  {
    var history := [Entry(Undo), Entry(Redo), Separator];
    var clipboard :=
      (if hasSelection then [Entry(Cut), Entry(Copy)] else [])
      + [Entry(Paste)]
      + (if hasSelection then [Entry(Delete)] else []);
    history + clipboard + [Separator, Entry(SelectAll)]
  }

  /** The switch of `OnContextMenuCommand`: ids 1001..1007 name one command each; any other id names none. */
  function CommandForId(id: int): (r: Option<EditCommand>)
    ensures r.Some? <==> UndoId <= id <= SelectAllId
  {
    if id == UndoId then Some(Undo)
    else if id == RedoId then Some(Redo)
    else if id == CutId then Some(Cut)
    else if id == CopyId then Some(Copy)
    else if id == PasteId then Some(Paste)
    else if id == DeleteId then Some(Delete)
    else if id == SelectAllId then Some(SelectAll)
    else None
  }

  /** The layout without a selection, entry by entry. */
  lemma PlainLayout()
    ensures BuildMenu(false) == [Entry(Undo), Entry(Redo), Separator, Entry(Paste), Separator, Entry(SelectAll)]
  {
    var history := [Entry(Undo), Entry(Redo), Separator];
    assert BuildMenu(false) == history + ([] + [Entry(Paste)] + []) + [Separator, Entry(SelectAll)];
    assert [] + [Entry(Paste)] + [] == [Entry(Paste)];
  }

  /** The layout with a selection, entry by entry. */
  lemma SelectionLayout()
    ensures BuildMenu(true) == [Entry(Undo), Entry(Redo), Separator, Entry(Cut), Entry(Copy),
                                Entry(Paste), Entry(Delete), Separator, Entry(SelectAll)]
  {
    var history := [Entry(Undo), Entry(Redo), Separator];
    var clipboard := [Entry(Cut), Entry(Copy)] + [Entry(Paste)] + [Entry(Delete)];
    assert BuildMenu(true) == history + clipboard + [Separator, Entry(SelectAll)];
    assert clipboard == [Entry(Cut), Entry(Copy), Entry(Paste), Entry(Delete)];
  }

  /** Ids and commands are in one-to-one correspondence. */
  lemma IdRoundTrip(c: EditCommand, id: int)
    ensures CommandForId(MenuId(c)) == Some(c)
    ensures CommandForId(id) == Some(c) ==> id == MenuId(c)
  {
  }

  /** The separator id is never taken for a command. */
  lemma SeparatorNotACommand()
    ensures CommandForId(SeparatorId).None?
  {
  }

  /**
   * Every entry the builder emits that is not a separator is accepted, and
   * replays exactly the command its title names.
   */
  lemma BuiltEntriesReplayTheirLabel(hasSelection: bool, i: int)
    requires 0 <= i < |BuildMenu(hasSelection)|
    requires BuildMenu(hasSelection)[i].id != SeparatorId
    ensures CommandForId(BuildMenu(hasSelection)[i].id).Some?
    ensures Title(CommandForId(BuildMenu(hasSelection)[i].id).value) == BuildMenu(hasSelection)[i].title
  {
    var item := BuildMenu(hasSelection)[i];
    if hasSelection { SelectionLayout(); } else { PlainLayout(); }
    assert item == Separator || exists c :: item == Entry(c);
    var c :| item == Entry(c);
    IdRoundTrip(c, item.id);
  }

  /** The commands on offer: always undo, redo, paste and select-all; cut, copy and delete only with a selection. */
  lemma OfferedCommands(hasSelection: bool, c: EditCommand)
    ensures Entry(c) in BuildMenu(hasSelection) <==> (c in {Undo, Redo, Paste, SelectAll} || hasSelection)
  {
  }
}
