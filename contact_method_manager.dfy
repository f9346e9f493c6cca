/**
 * The contact-method editor: a list of values with one add/edit sheet. editingIndex is null
 * while the sheet is closed, -1 while adding and the edited index while editing; the list itself
 * belongs to the caller, which is told about each save through onAdd or onEdit.
 */
module ContactMethodManager {
  import opened Wrappers
  import opened JsText

  /** The marker index of add mode. */
  const AddMode := -1

  /** One call of the caller's callbacks. */
  datatype Callback = OnAdd(value: string) | OnEdit(index: int, value: string)

  /**
   * The callbacks one saveDraft makes: none for a blank draft or a closed sheet, onAdd in add
   * mode, onEdit with the edited index otherwise; the value is the trimmed draft.
   */
  function SaveCallbacks(editingIndex: Option<int>, draft: string): (cs: seq<Callback>)
    ensures |cs| <= 1
    ensures IsBlank(draft) || editingIndex.None? ==> cs == []
    ensures !IsBlank(draft) && editingIndex == Some(AddMode) ==> cs == [OnAdd(Trim(draft))]
    ensures !IsBlank(draft) && editingIndex.Some? && editingIndex.value != AddMode ==>
              cs == [OnEdit(editingIndex.value, Trim(draft))]
    ensures forall c :: c in cs ==> c.value != "" && c.value == Trim(draft)
  {
    var v := Trim(draft);
    if v == "" then []
    else if editingIndex == Some(AddMode) then [OnAdd(v)]
    else if editingIndex.Some? then [OnEdit(editingIndex.value, v)]
    else []
  }

  class ContactMethodEditor {
    /** The items the caller passes in. */
    const items: seq<string>
    var editingIndex: Option<int>
    var draft: string
    /** Every callback made so far, in order. */
    var calls: seq<Callback>

    constructor (items: seq<string>)
      ensures this.items == items && editingIndex == None && draft == "" && calls == []
    {
      this.items := items;
      editingIndex := None;
      draft := "";
      calls := [];
    }

    /** The sheet is shown exactly while an index is being edited or added. */
    predicate ModalVisible()
      reads this
    {
      editingIndex.Some?
    }

    /** What the sheet is editing is always add mode or an index of the list. */
    predicate Valid()
      reads this
    {
      editingIndex.Some? ==> editingIndex.value == AddMode || 0 <= editingIndex.value < |items|
    }

    method OpenAdd()
      modifies this`editingIndex, this`draft
      ensures editingIndex == Some(AddMode) && draft == "" && ModalVisible() && Valid()
    {
      editingIndex := Some(AddMode);
      draft := "";
    }

    method OpenEdit(i: int)
      requires 0 <= i < |items|
      modifies this`editingIndex, this`draft
      ensures editingIndex == Some(i) && draft == items[i] && ModalVisible() && Valid()
    {
      editingIndex := Some(i);
      draft := items[i];
    }

    method SetDraft(v: string)
      modifies this`draft
      ensures draft == v
    {
      draft := v;
    }

    method CloseModal()
      modifies this`editingIndex, this`draft
      ensures editingIndex == None && draft == "" && !ModalVisible() && Valid()
    {
      editingIndex := None;
      draft := "";
    }

    /**
     * saveDraft: a blank draft changes nothing and keeps the sheet open; otherwise the one
     * callback of the mode is made and the sheet closes.
     */
    method SaveDraft()
      modifies this`editingIndex, this`draft, this`calls
      ensures calls == old(calls) + SaveCallbacks(old(editingIndex), old(draft))
      ensures IsBlank(old(draft)) ==> editingIndex == old(editingIndex) && draft == old(draft)
      ensures !IsBlank(old(draft)) ==> editingIndex == None && draft == "" && !ModalVisible()
      ensures old(Valid()) ==> Valid()
    {
      var v := Trim(draft);
      if v == "" {
        return;
      }
      if editingIndex == Some(AddMode) {
        calls := calls + [OnAdd(v)];
      } else if editingIndex.Some? {
        calls := calls + [OnEdit(editingIndex.value, v)];
      }
      CloseModal();
    }
  }
}
