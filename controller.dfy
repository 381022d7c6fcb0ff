/** The controller as the page runs it: one object whose fields are the
    module flag and the DOM properties the handlers overwrite in place. */
module Controller {
  import opened Wrappers
  import opened Elements
  import opened Notifications
  import opened ViewState

  class ViewController {
    /** Which handles the page lookup found, and each zone's `data-level`
        attribute; both are fixed once the page has loaded. */
    const page: Page

    /** The module flag `overlayVisible`. */
    var overlayVisible: bool
    /** `overlay.style.display` and `toggleOverlayBtn.textContent`. */
    var overlayDisplay: string
    var toggleLabel: string
    /** `style.boxShadow` of each zone element. */
    var boxShadow: map<Zone, string>
    /** `errorContainer.style.display`, `.style.background` and its content. */
    var bannerDisplay: string
    var bannerBackground: string
    var bannerContent: Option<Notice>
    /** Auto-hide callbacks scheduled and not yet run. */
    var pendingSuccessTimers: nat
    var pendingErrorTimers: nat
    /** The zone click listeners are registered. */
    var zoneListeners: bool

    /** The fields read as a view-state value. */
    function State(): View
      reads this
    {
      View(overlayVisible, overlayDisplay, toggleLabel, boxShadow,
           Banner(bannerDisplay, bannerBackground, bannerContent,
                  pendingSuccessTimers, pendingErrorTimers),
           zoneListeners)
    }

    ghost predicate Valid()
      reads this
    {
      Consistent(State(), page)
    }

    /** The page has loaded: handles looked up, flag set. */
    constructor (present: set<Handle>, dataLevel: map<Zone, string>, markupLabel: string)
      ensures Valid()
      ensures page == Page(present, dataLevel)
      ensures State() == Initial(markupLabel)
    {
      page := Page(present, dataLevel);
      overlayVisible := true;
      overlayDisplay := "";
      toggleLabel := markupLabel;
      boxShadow := map[Safe := "", Warning := "", Critical := ""];
      bannerDisplay := "";
      bannerBackground := "";
      bannerContent := None;
      pendingSuccessTimers := 0;
      pendingErrorTimers := 0;
      zoneListeners := false;
    }

    /** `showSuccess(message)`. */
    method ShowSuccess(message: string)
      requires Valid()
      modifies this
      ensures Valid()
      ensures State() == old(State()).(banner :=
        Notifications.ShowSuccess(old(State()).banner, ContainerPresent(page), message))
    {
      if ErrorContainer !in page.present {
        return;
      }
      bannerDisplay := Block;
      bannerBackground := Green;
      bannerContent := Some(Notice(Success, message));
      pendingSuccessTimers := pendingSuccessTimers + 1;
    }

    /** `showError(message)`. */
    method ShowError(message: string)
      requires Valid()
      modifies this
      ensures Valid()
      ensures State() == old(State()).(banner :=
        Notifications.ShowError(old(State()).banner, ContainerPresent(page), message))
    {
      if ErrorContainer !in page.present {
        return;
      }
      bannerDisplay := Block;
      bannerContent := Some(Notice(Error, message));
      pendingErrorTimers := pendingErrorTimers + 1;
    }

    /** One pending `showSuccess` callback runs. */
    method SuccessTimerFires()
      requires Valid() && pendingSuccessTimers > 0
      modifies this
      ensures Valid()
      ensures State() == SuccessTimer(old(State()))
    {
      bannerDisplay := Hidden;
      bannerBackground := Red;
      pendingSuccessTimers := pendingSuccessTimers - 1;
    }

    /** One pending `showError` callback runs. */
    method ErrorTimerFires()
      requires Valid() && pendingErrorTimers > 0
      modifies this
      ensures Valid()
      ensures State() == ErrorTimer(old(State()))
    {
      bannerDisplay := Hidden;
      pendingErrorTimers := pendingErrorTimers - 1;
    }

    /** `toggleOverlay()`. */
    method ToggleOverlay()
      requires Valid()
      modifies this
      ensures Valid()
      ensures State() == ViewState.ToggleOverlay(old(State()), page)
    {
      CommandsKeepConsistent(State(), page, Safe);
      var checked := ValidateElements(page.present);
      if checked.Fail? {
        ShowError(ToggleFailurePrefix + checked.error);
        return;
      }
      overlayVisible := !overlayVisible;
      if overlayVisible {
        overlayDisplay := Block;
        toggleLabel := HideLabel;
        ShowSuccess("Overlay shown");
      } else {
        overlayDisplay := Hidden;
        toggleLabel := ShowLabel;
        ShowSuccess("Overlay hidden");
      }
    }

    /** `resetView()`. */
    method ResetView()
      requires Valid()
      modifies this
      ensures Valid()
      ensures State() == ViewState.ResetView(old(State()), page)
    {
      CommandsKeepConsistent(State(), page, Safe);
      var checked := ValidateElements(page.present);
      if checked.Fail? {
        ShowError(ResetFailurePrefix + checked.error);
        return;
      }
      overlayVisible := true;
      overlayDisplay := Block;
      toggleLabel := HideLabel;
      ShowSuccess("View reset successfully");
    }

    /** `setupOverlayInteractions()`. */
    method SetupOverlayInteractions()
      requires Valid()
      modifies this
      ensures Valid()
      ensures State() == ViewState.SetupOverlayInteractions(old(State()), page)
    {
      CommandsKeepConsistent(State(), page, Safe);
      var checked := ValidateElements(page.present);
      if checked.Fail? {
        ShowError(SetupFailurePrefix + checked.error);
        return;
      }
      zoneListeners := true;
    }

    /** The click listener of zone `z`: clear every zone, highlight `z`,
        report its label. */
    method ZoneClicked(z: Zone)
      requires Valid()
      modifies this
      ensures Valid()
      ensures State() == ZoneClick(old(State()), page, z)
      ensures old(zoneListeners) && z in page.dataLevel && page.dataLevel[z] == CanonicalLevel(z) ==>
        bannerContent == Some(Notice(Success, SelectedPrefix + ZoneLabel(z)))
    {
      CommandsKeepConsistent(State(), page, z);
      if zoneListeners && z in page.dataLevel && page.dataLevel[z] == CanonicalLevel(z) {
        ZoneClickReportsLabel(State(), page, z);
      }
      if !zoneListeners {
        return;
      }
      var i := 0;
      while i < |Zones|
        invariant 0 <= i <= |Zones|
        invariant ClearShadows(boxShadow, Zones[i..]) == ClearShadows(old(boxShadow), Zones)
        invariant State() == old(State()).(boxShadow := boxShadow)
      {
        assert Zones[i..][1..] == Zones[i + 1..];
        boxShadow := boxShadow[Zones[i] := ""];
        i := i + 1;
      }
      boxShadow := boxShadow[z := Highlight];
      ShowSuccess(SelectedPrefix + LevelText(LevelAttr(page, z)));
    }
  }
}
