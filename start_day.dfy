/**
 * The start-day picker dialog: a grid of days 1..33, a two-step
 * confirmation, a reset on close, and the preview of the order in which the
 * programme will run from the chosen day.
 */
module StartDay {

  import opened Wrappers

  /** The number of days offered. */
  const ProgramDays: nat := 33

  /**
   * The numbers on the grid buttons, `Array.from({ length: 33 }, (_, i) => i + 1)`:
   * 33 buttons in increasing order, offering exactly the days 1..33.
   */
  function GridDays(): (r: seq<int>)
    ensures |r| == ProgramDays
    ensures forall i, j :: 0 <= i < j < |r| ==> r[i] < r[j]
    ensures forall d :: d in r <==> 1 <= d <= ProgramDays
  {
    var r := seq(ProgramDays, i => i + 1);
    assert forall d :: 1 <= d <= ProgramDays ==> d in r by {
      forall d | 1 <= d <= ProgramDays ensures d in r {
        assert r[d - 1] == d;
      }
    }
    r
  }

  /** The order the programme runs in from `start`: start, start + 1, ..., 33, 1, ..., start - 1. */
  function ConsecrationOrder(start: int): (r: seq<int>)
    requires 1 <= start <= ProgramDays
    ensures |r| == ProgramDays && r[0] == start
    ensures forall i :: 0 <= i < |r| ==> 1 <= r[i] <= ProgramDays
  {
    seq(ProgramDays, i => (start - 1 + i) % ProgramDays + 1)
  }

  /** Every day of the programme occurs in the order, so the order is a rotation of 1..33. */
  lemma ConsecrationOrderCoversEveryDay(start: int, d: int)
    requires 1 <= start <= ProgramDays && 1 <= d <= ProgramDays
    ensures d in ConsecrationOrder(start)
  {
    var i := (d - start + ProgramDays) % ProgramDays;
    assert ConsecrationOrder(start)[i] == d;
  }

  /** Each day of the order is followed by the next day, with 33 followed by 1. */
  lemma ConsecrationOrderAdvances(start: int, i: int)
    requires 1 <= start <= ProgramDays && 0 <= i < ProgramDays - 1
    ensures var o := ConsecrationOrder(start);
      o[i + 1] == if o[i] < ProgramDays then o[i] + 1 else 1
  {
  }

  /** The line "Orden: first → next → ... → last". */
  datatype OrderPreview = OrderPreview(first: int, next: int, last: int)

  /**
   * The preview: shown only for a start day above 1; the next day is
   * `selectedDay + 1`, or 1 after day 33; the last day is `selectedDay - 1`.
   */
  function Preview(selectedDay: int): (r: Option<OrderPreview>)
    requires 1 <= selectedDay <= ProgramDays
    ensures r.Some? <==> selectedDay > 1
    ensures r.Some? ==> 1 <= r.value.next <= ProgramDays && 1 <= r.value.last <= ProgramDays
  {
    if selectedDay > 1 then
      Some(OrderPreview(selectedDay, if selectedDay < ProgramDays then selectedDay + 1 else 1, selectedDay - 1))
    else None
  }

  /** The preview names the first, second and last day of the order the programme will follow. */
  lemma PreviewMatchesOrder(selectedDay: int)
    requires 1 < selectedDay <= ProgramDays
    ensures var p := Preview(selectedDay).value;
      var o := ConsecrationOrder(selectedDay);
      p.first == o[0] && p.next == o[1] && p.last == o[ProgramDays - 1]
  {
  }

  /** A call the dialog makes to its parent. */
  datatype ModalCall = OnConfirm(startDay: int) | OnClose

  /** The dialog's state: `selectedDay`, `showConfirmation` and the calls made so far. */
  class StartDayModal {
    var selectedDay: int
    var showConfirmation: bool
    var calls: seq<ModalCall>

    /** The selected day is a grid day, and so is every confirmed day. */
    ghost predicate Valid()
      reads this
    {
      && 1 <= selectedDay <= ProgramDays
      && forall i :: 0 <= i < |calls| && calls[i].OnConfirm? ==> 1 <= calls[i].startDay <= ProgramDays
    }

    /** `useState(1)` and `useState(false)`. */
    constructor ()
      ensures Valid()
      ensures selectedDay == 1 && !showConfirmation && calls == []
    {
      selectedDay := 1;
      showConfirmation := false;
      calls := [];
    }

    /** `handleDaySelect(day)`, reached only from a grid button. */
    method HandleDaySelect(day: int)
      requires Valid() && day in GridDays()
      modifies this
      ensures Valid()
      ensures selectedDay == day
      ensures showConfirmation == old(showConfirmation) && calls == old(calls)
    {
      selectedDay := day;
    }

    /**
     * `handleConfirm`: the first press only shows the confirmation; a press
     * while it is showing calls `onConfirm(selectedDay)`.
     */
    method HandleConfirm()
      requires Valid()
      modifies this
      ensures Valid()
      ensures showConfirmation && selectedDay == old(selectedDay)
      ensures calls == if old(showConfirmation) then old(calls) + [OnConfirm(selectedDay)] else old(calls)
    {
      if !showConfirmation {
        showConfirmation := true;
        return;
      }
      calls := calls + [OnConfirm(selectedDay)];
    }

    /** `handleClose`: back to day 1 without confirmation, then `onClose()`. */
    method HandleClose()
      requires Valid()
      modifies this
      ensures Valid()
      ensures selectedDay == 1 && !showConfirmation
      ensures calls == old(calls) + [OnClose]
    {
      showConfirmation := false;
      selectedDay := 1;
      calls := calls + [OnClose];
    }

    /**
     * The footer's left button, disabled while loading: "Volver" leaves the
     * confirmation and keeps the selected day; "Cancelar" is `handleClose`.
     */
    method PressBackOrCancel(isLoading: bool)
      requires Valid()
      modifies this
      ensures Valid()
      ensures isLoading ==> selectedDay == old(selectedDay) && showConfirmation == old(showConfirmation) && calls == old(calls)
      ensures !isLoading && old(showConfirmation) ==>
        !showConfirmation && selectedDay == old(selectedDay) && calls == old(calls)
      ensures !isLoading && !old(showConfirmation) ==>
        !showConfirmation && selectedDay == 1 && calls == old(calls) + [OnClose]
    {
      if isLoading {
        return;
      }
      if showConfirmation {
        showConfirmation := false;
      } else {
        HandleClose();
      }
    }

    /** The footer's right button, disabled while loading: "Continuar" or "Confirmar Día n". */
    method PressConfirm(isLoading: bool)
      requires Valid()
      modifies this
      ensures Valid()
      ensures selectedDay == old(selectedDay)
      ensures isLoading ==> showConfirmation == old(showConfirmation) && calls == old(calls)
      ensures !isLoading ==> showConfirmation
      ensures !isLoading ==>
        calls == if old(showConfirmation) then old(calls) + [OnConfirm(selectedDay)] else old(calls)
    {
      if !isLoading {
        HandleConfirm();
      }
    }

    /** The close icon in the header, disabled while loading. */
    method PressCloseIcon(isLoading: bool)
      requires Valid()
      modifies this
      ensures Valid()
      ensures isLoading ==> selectedDay == old(selectedDay) && showConfirmation == old(showConfirmation) && calls == old(calls)
      ensures !isLoading ==> selectedDay == 1 && !showConfirmation && calls == old(calls) + [OnClose]
    {
      if !isLoading {
        HandleClose();
      }
    }
  }

  /** Picking a day and pressing the confirm button twice confirms exactly that day. */
  method PickAndConfirm(day: int) returns (calls: seq<ModalCall>)
    requires 1 <= day <= ProgramDays
    ensures calls == [OnConfirm(day)]
  {
    var m := new StartDayModal();
    m.HandleDaySelect(day);
    m.HandleConfirm();
    assert m.calls == [];
    m.HandleConfirm();
    calls := m.calls;
  }
}
