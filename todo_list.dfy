/** The `my-todo` list (components/todo/scripts/my-todo.js): a list of items changed in place by
    append, splice-by-index and toggle-at-index, and re-rendered into its container after each
    change. */
module TodoList {
  import opened Dom

  /** One entry of the list. `checked` is `None` for an item added without the flag. */
  datatype Item = Item(text: string, checked: Option<bool>)

  /** One rendered `todo-item`: its index, text and checked flag. */
  datatype Entry = Entry(index: nat, text: string, checked: Option<bool>)

  /** JavaScript truthiness of the flag: a missing flag counts as unchecked. */
  predicate IsChecked(item: Item) {
    item.checked == Some(true)
  }

  const InitialList := [Item("my todo 1", Some(false)), Item("my todo 2", Some(true))]

  /** `push({ text })`: one unchecked item at the end, without a flag. */
  function Appended(list: seq<Item>, text: string): (r: seq<Item>)
    ensures |r| == |list| + 1
    ensures r[..|list|] == list
    ensures r[|list|].text == text && r[|list|].checked == None && !IsChecked(r[|list|])
  {
    list + [Item(text, None)]
  }

  /** The position `splice(start, 1)` starts at: a negative start counts from the end and
      is clamped at 0, a start past the end is clamped to the length. */
  function SpliceStart(length: nat, start: int): (k: nat)
    ensures k <= length
    ensures 0 <= start <= length ==> k == start
    ensures start > length ==> k == length
    ensures start < 0 && length + start >= 0 ==> k == length + start
    ensures length + start < 0 ==> k == 0
  {
    if start < 0 then (if length + start < 0 then 0 else length + start)
    else if start > length then length
    else start
  }

  /** `r` is `list` with exactly the item at `k` removed, the rest in their order. */
  predicate RemovedAt(list: seq<Item>, r: seq<Item>, k: nat)
    requires k < |list|
  {
    && |r| == |list| - 1
    && (forall j :: 0 <= j < k ==> r[j] == list[j])
    && (forall j :: k <= j < |r| ==> r[j] == list[j + 1])
  }

  /** `splice(i, 1)`: removes the item at the start position, if there is one there, and
      keeps the order of the rest; a negative index counts from the end. */
  function Spliced(list: seq<Item>, i: int): (r: seq<Item>)
    ensures 0 <= i < |list| ==> RemovedAt(list, r, i)
    ensures i >= |list| ==> r == list
    ensures -|list| <= i < 0 ==> RemovedAt(list, r, |list| + i)
    ensures i < -|list| && list != [] ==> RemovedAt(list, r, 0)
    ensures list == [] ==> r == []
  {
    var k := SpliceStart(|list|, i);
    if k < |list| then list[..k] + list[k + 1..] else list
  }

  /** `_list[i] = Object.assign({}, item, { checked: !item.checked })`: the flag at `i`
      flips (a missing flag counts as false) and nothing else changes. */
  function Toggled(list: seq<Item>, i: nat): (r: seq<Item>)
    requires i < |list|
    ensures |r| == |list|
    ensures r[i].text == list[i].text
    ensures IsChecked(r[i]) == !IsChecked(list[i]) && r[i].checked == Some(!IsChecked(list[i]))
    ensures forall k :: 0 <= k < |list| && k != i ==> r[k] == list[k]
  {
    list[i := Item(list[i].text, Some(!IsChecked(list[i])))]
  }

  /** What `_render` puts into the container: one entry per item, in order. */
  function Entries(list: seq<Item>): seq<Entry> {
    seq(|list|, k requires 0 <= k < |list| => Entry(k, list[k].text, list[k].checked))
  }

  /** Removing the index just appended gives back the list before the append. */
  lemma RemoveUndoesAdd(list: seq<Item>, text: string)
    ensures Spliced(Appended(list, text), |list|) == list
  {
    var a := Appended(list, text);
    assert a[..|list|] == list;
  }

  /** Toggling the same index twice restores the item's checked state and text, and leaves
      the other items as they were; an item whose flag was present comes back unchanged. */
  lemma ToggleTwice(list: seq<Item>, i: nat)
    requires i < |list|
    ensures var r := Toggled(Toggled(list, i), i);
            IsChecked(r[i]) == IsChecked(list[i]) && r[i].text == list[i].text &&
            (list[i].checked.Some? ==> r == list)
  {
    var once := Toggled(list, i);
    var r := Toggled(once, i);
    assert r[i].checked == Some(IsChecked(list[i]));
    if list[i].checked.Some? {
      assert IsChecked(list[i]) == list[i].checked.value;
      assert r[i] == list[i];
      assert forall k :: 0 <= k < |list| ==> r[k] == list[k];
    }
  }

  /** The `_render` loop: one entry per item, with its index, text and flag. */
  method RenderEntries(list: seq<Item>) returns (entries: seq<Entry>)
    ensures |entries| == |list|
    ensures forall k :: 0 <= k < |list| ==>
              entries[k].index == k && entries[k].text == list[k].text && entries[k].checked == list[k].checked
  {
    entries := [];
    var index := 0;
    while index < |list|
      invariant 0 <= index <= |list| && |entries| == index
      invariant forall k :: 0 <= k < index ==>
                  entries[k].index == k && entries[k].text == list[k].text && entries[k].checked == list[k].checked
    {
      entries := entries + [Entry(index, list[index].text, list[index].checked)];
      index := index + 1;
    }
  }

  lemma RenderedIsEntries(list: seq<Item>, entries: seq<Entry>)
    requires |entries| == |list|
    requires forall k :: 0 <= k < |list| ==>
               entries[k].index == k && entries[k].text == list[k].text && entries[k].checked == list[k].checked
    ensures entries == Entries(list)
  {
  }

  class MyTodo {
    var list: seq<Item>
    /** The rendered list container; `None` before attachment, when `_render` does nothing. */
    var container: Option<seq<Entry>>

    constructor ()
      ensures list == InitialList && container == None
    {
      list := InitialList;
      container := None;
    }

    method Render()
      modifies this
      ensures list == old(list)
      ensures container == if old(container).Some? then Some(Entries(list)) else None
    {
      if container.None? {
        return;
      }
      var entries := RenderEntries(list);
      RenderedIsEntries(list, entries);
      container := Some(entries);
    }

    method ConnectedCallback()
      modifies this
      ensures list == old(list) && container == Some(Entries(list))
    {
      container := Some([]);
      Render();
    }

    method AddItem(text: string)
      modifies this
      ensures list == Appended(old(list), text)
      ensures container == if old(container).Some? then Some(Entries(list)) else None
    {
      list := list + [Item(text, None)];
      Render();
    }

    method RemoveItem(i: int)
      modifies this
      ensures list == Spliced(old(list), i)
      ensures container == if old(container).Some? then Some(Entries(list)) else None
    {
      var k := SpliceStart(|list|, i);
      if k < |list| {
        list := list[..k] + list[k + 1..];
      }
      Render();
    }

    /** An index with no item makes `item.checked` throw: the host reports the TypeError and
        neither the list nor the container changes. */
    method ToggleItem(i: int) returns (ok: bool)
      modifies this
      ensures ok == (0 <= i < |old(list)|)
      ensures ok ==> list == Toggled(old(list), i)
      ensures ok ==> container == if old(container).Some? then Some(Entries(list)) else None
      ensures !ok ==> list == old(list) && container == old(container)
    {
      if i < 0 || i >= |list| {
        return false;
      }
      var item := list[i];
      list := list[i := Item(item.text, Some(!IsChecked(item)))];
      Render();
      return true;
    }
  }
}
