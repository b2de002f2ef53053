/**
 * The main layout's menu decisions: whether libre mode is on, whether the
 * start-day option is offered, and the two dialogs whose confirmation sends
 * a request and closes the dialog only when the request succeeds.
 */
module Layout {

  import opened Wrappers

  /** The fields of `dashboardData.user` the layout reads; either may be absent. */
  datatype UserInfo = UserInfo(libreMode: Option<bool>, hasChosenStartDay: Option<bool>)

  /** The dashboard query's data; `user` may be absent. */
  datatype DashboardData = DashboardData(user: Option<UserInfo>)

  /** `dashboardData?.user?.libre_mode || false`: an absent data, user or flag reads as `false`. */
  function IsLibreModeActive(data: Option<DashboardData>): bool {
    match data
    case None => false
    case Some(d) =>
      match d.user
      case None => false
      case Some(u) => u.libreMode.Some? && u.libreMode.value
  }

  /** `dashboardData?.user?.has_chosen_start_day === false`: an absent value is not `false`. */
  function CanChooseStartDay(data: Option<DashboardData>): bool {
    match data
    case None => false
    case Some(d) =>
      match d.user
      case None => false
      case Some(u) => u.hasChosenStartDay == Some(false)
  }

  /**
   * Missing data, a missing user or a missing flag reads as libre mode off
   * and as the start-day option hidden.
   */
  lemma MissingDataMeansOff(data: Option<DashboardData>)
    ensures (data.None? || data.value.user.None? || data.value.user.value.libreMode.None?) ==> !IsLibreModeActive(data)
    ensures (data.None? || data.value.user.None? || data.value.user.value.hasChosenStartDay.None?) ==> !CanChooseStartDay(data)
  {
  }

  /**
   * The two flags treat a missing value differently: a missing `libre_mode`
   * counts as `false`, while a missing `has_chosen_start_day` does not, so
   * only an explicit `false` offers the start-day option.
   */
  lemma MissingFlagsReadDifferently(u: UserInfo)
    ensures IsLibreModeActive(Some(DashboardData(Some(u.(libreMode := None)))))
      == IsLibreModeActive(Some(DashboardData(Some(u.(libreMode := Some(false))))))
    ensures CanChooseStartDay(Some(DashboardData(Some(u.(hasChosenStartDay := None)))))
      != CanChooseStartDay(Some(DashboardData(Some(u.(hasChosenStartDay := Some(false))))))
    ensures !CanChooseStartDay(Some(DashboardData(Some(u.(hasChosenStartDay := Some(true))))))
  {
  }

  /** The value of `libreModeAction`. */
  datatype LibreModeAction = Activate | Deactivate

  /** The action `handleLibreModeToggle` prepares from the current mode. */
  function PendingAction(data: Option<DashboardData>): LibreModeAction {
    if IsLibreModeActive(data) then Deactivate else Activate
  }

  /** The value `confirmLibreModeToggle` sends: `libreModeAction === "activate"`. */
  function RequestedLibreMode(a: LibreModeAction): bool {
    a == Activate
  }

  /**
   * Preparing from the current data and confirming asks for the opposite of
   * the current mode: "deactivate" exactly when libre mode is on.
   */
  lemma ConfirmRequestsOppositeMode(data: Option<DashboardData>)
    ensures PendingAction(data) == Deactivate <==> IsLibreModeActive(data)
    ensures RequestedLibreMode(PendingAction(data)) == !IsLibreModeActive(data)
  {
  }

  /** A mutation the layout sends. */
  datatype Request = ToggleLibreMode(libreMode: bool) | SetStartDay(startDay: int)

  /** The layout's dialog state and the mutations sent so far. */
  class MainLayout {
    var showLibreModeModal: bool
    var showStartDayModal: bool
    var libreModeAction: LibreModeAction
    var requests: seq<Request>

    /** `useState(false)`, `useState(false)`, `useState("activate")`. */
    constructor ()
      ensures !showLibreModeModal && !showStartDayModal
      ensures libreModeAction == Activate && requests == []
    {
      showLibreModeModal := false;
      showStartDayModal := false;
      libreModeAction := Activate;
      requests := [];
    }

    /** `handleLibreModeToggle`: prepare the opposite of the current mode and open the dialog. */
    method HandleLibreModeToggle(data: Option<DashboardData>)
      modifies this
      ensures libreModeAction == PendingAction(data) && showLibreModeModal
      ensures showStartDayModal == old(showStartDayModal) && requests == old(requests)
    {
      var current := IsLibreModeActive(data);
      libreModeAction := if current then Deactivate else Activate;
      showLibreModeModal := true;
    }

    /**
     * `confirmLibreModeToggle`: send the prepared mode; the dialog closes only
     * when the mutation succeeds and stays as it was when it fails.
     */
    method ConfirmLibreModeToggle(succeeded: bool)
      modifies this
      ensures requests == old(requests) + [ToggleLibreMode(RequestedLibreMode(libreModeAction))]
      ensures showLibreModeModal == (old(showLibreModeModal) && !succeeded)
      ensures libreModeAction == old(libreModeAction) && showStartDayModal == old(showStartDayModal)
    {
      var newLibreMode := libreModeAction == Activate;
      requests := requests + [ToggleLibreMode(newLibreMode)];
      if succeeded {
        showLibreModeModal := false;
      }
    }

    /** The libre-mode dialog's `onClose`. */
    method CloseLibreModeModal()
      modifies this
      ensures !showLibreModeModal
      ensures libreModeAction == old(libreModeAction) && showStartDayModal == old(showStartDayModal)
      ensures requests == old(requests)
    {
      showLibreModeModal := false;
    }

    /** The "Elegir Día de Inicio" menu entry, rendered only when the start day may be chosen. */
    method OpenStartDayModal(data: Option<DashboardData>)
      modifies this
      ensures showStartDayModal == (old(showStartDayModal) || CanChooseStartDay(data))
      ensures showLibreModeModal == old(showLibreModeModal) && libreModeAction == old(libreModeAction)
      ensures requests == old(requests)
    {
      if CanChooseStartDay(data) {
        showStartDayModal := true;
      }
    }

    /**
     * `handleStartDaySelection(startDay)`: send the chosen day; the dialog
     * closes only when the mutation succeeds.
     */
    method HandleStartDaySelection(startDay: int, succeeded: bool)
      modifies this
      ensures requests == old(requests) + [SetStartDay(startDay)]
      ensures showStartDayModal == (old(showStartDayModal) && !succeeded)
      ensures showLibreModeModal == old(showLibreModeModal) && libreModeAction == old(libreModeAction)
    {
      requests := requests + [SetStartDay(startDay)];
      if succeeded {
        showStartDayModal := false;
      }
    }

    /** The start-day dialog's `onClose`. */
    method CloseStartDayModal()
      modifies this
      ensures !showStartDayModal
      ensures showLibreModeModal == old(showLibreModeModal) && libreModeAction == old(libreModeAction)
      ensures requests == old(requests)
    {
      showStartDayModal := false;
    }
  }

  /** Opening the libre-mode dialog and confirming asks for the opposite of the mode shown, whatever the outcome. */
  method ToggleThenConfirm(data: Option<DashboardData>, succeeded: bool) returns (sent: Request, stillOpen: bool)
    ensures sent == ToggleLibreMode(!IsLibreModeActive(data))
    ensures stillOpen == !succeeded
  {
    var layout := new MainLayout();
    layout.HandleLibreModeToggle(data);
    layout.ConfirmLibreModeToggle(succeeded);
    ConfirmRequestsOppositeMode(data);
    sent := layout.requests[0];
    stillOpen := layout.showLibreModeModal;
  }
}
