/** The view-state controller as transitions on a value: the overlay flag,
    the overlay's `display`, the toggle button's label, the three zone
    highlights and the banner, driven by the commands `toggleOverlay`,
    `resetView`, `setupOverlayInteractions` and a click on a zone. */
module ViewState {
  import opened Wrappers
  import opened Elements
  import opened Notifications

  /** The three clickable zones of the overlay. */
  datatype Zone = Safe | Warning | Critical

  /** The zones the click handler clears. */
  const Zones: seq<Zone> := [Safe, Warning, Critical]
  const AllZones: set<Zone> := {Safe, Warning, Critical}

  /** The `boxShadow` of the selected zone; a cleared zone holds "". */
  const Highlight: string := "0 0 20px #fff, 0 0 30px rgba(255, 255, 255, 0.8)"

  const ShowLabel: string := "Show Overlay"
  const HideLabel: string := "Hide Overlay"

  const ToggleFailurePrefix: string := "Failed to toggle overlay: "
  const ResetFailurePrefix: string := "Failed to reset view: "
  const SetupFailurePrefix: string := "Failed to setup overlay interactions: "
  const SelectedPrefix: string := "Selected zone: "

  /** The human-readable label of a zone. */
  function ZoneLabel(z: Zone): string
  {
    match z
    case Safe => "Safe (Green)"
    case Warning => "Warning (Yellow)"
    case Critical => "Critical (Red)"
  }

  /** The `data-level` value the page's markup gives each zone. */
  function CanonicalLevel(z: Zone): string
  {
    match z
    case Safe => "safe"
    case Warning => "warning"
    case Critical => "critical"
  }

  /** The click handler's `levelNames` lookup table. */
  function LevelName(level: string): Option<string>
  {
    if level == "safe" then Some("Safe (Green)")
    else if level == "warning" then Some("Warning (Yellow)")
    else if level == "critical" then Some("Critical (Red)")
    else None
  }

  /** What the message template prints for a zone whose `data-level`
      attribute is `attr` (None when the attribute is absent): the looked-up
      name, or "undefined" when the lookup misses. */
  function LevelText(attr: Option<string>): string
  {
    match attr
    case None => "undefined"
    case Some(level) =>
      match LevelName(level)
      case Some(name) => name
      case None => "undefined"
  }

  /** The lookup table covers exactly the three markup levels, giving each
      zone its own label. */
  lemma LevelNamesMatchZones(level: string)
    ensures LevelName(level).Some? <==> exists z: Zone :: level == CanonicalLevel(z)
    ensures forall z: Zone :: LevelName(CanonicalLevel(z)) == Some(ZoneLabel(z))
  {
    if level == "safe" { assert level == CanonicalLevel(Safe); }
    else if level == "warning" { assert level == CanonicalLevel(Warning); }
    else if level == "critical" { assert level == CanonicalLevel(Critical); }
  }

  /** Sets the highlight of every zone of `zs` to "", front to back. */
  function ClearShadows(m: map<Zone, string>, zs: seq<Zone>): map<Zone, string>
    decreases |zs|
  {
    if zs == [] then m else ClearShadows(m[zs[0] := ""], zs[1..])
  }

  /** Clearing blanks exactly the listed zones and keeps every other one. */
  lemma {:induction false} ClearShadowsBlanks(m: map<Zone, string>, zs: seq<Zone>)
    ensures ClearShadows(m, zs).Keys == m.Keys + set z | z in zs
    ensures forall z :: z in zs ==> ClearShadows(m, zs)[z] == ""
    ensures forall z :: z in m && z !in zs ==> ClearShadows(m, zs)[z] == m[z]
    decreases |zs|
  {
    if zs != [] {
      ClearShadowsBlanks(m[zs[0] := ""], zs[1..]);
      assert forall z :: z in zs <==> z == zs[0] || z in zs[1..];
    }
  }

  /** The element handles that were found, and each zone's `data-level`
      attribute (a zone missing from the map has none). */
  datatype Page = Page(present: set<Handle>, dataLevel: map<Zone, string>)

  function ContainerPresent(p: Page): bool
  {
    ErrorContainer in p.present
  }

  function LevelAttr(p: Page, z: Zone): Option<string>
  {
    if z in p.dataLevel then Some(p.dataLevel[z]) else None
  }

  /** Everything the controller's commands observe or change. The overlay
      flag is `overlayVisible`; `overlayDisplay` and `toggleLabel` are the
      overlay's inline `display` and the toggle button's text;
      `zoneListeners` records that the click listeners are registered. */
  datatype View = View(
    overlayVisible: bool,
    overlayDisplay: string,
    toggleLabel: string,
    boxShadow: map<Zone, string>,
    banner: Banner,
    zoneListeners: bool)

  /** The state at page load: the flag is set, no inline styles are
      written, the label is whatever the markup says. */
  function Initial(markupLabel: string): View
  {
    View(true, "", markupLabel, map[Safe := "", Warning := "", Critical := ""],
         Untouched, false)
  }

  /** The overlay's display and the button's label agree with the flag. */
  predicate Synced(v: View)
  {
    v.overlayDisplay == (if v.overlayVisible then Block else Hidden) &&
    v.toggleLabel == (if v.overlayVisible then HideLabel else ShowLabel)
  }

  /** The invariant of every reachable state of a page `p`: listeners are
      only registered when every handle was found, a timer is only pending
      when the banner exists, and every zone has a highlight entry. */
  predicate Consistent(v: View, p: Page)
  {
    (v.zoneListeners ==> AllPresent(p.present)) &&
    (v.banner.pendingSuccessTimers > 0 ==> ContainerPresent(p)) &&
    (v.banner.pendingErrorTimers > 0 ==> ContainerPresent(p)) &&
    v.boxShadow.Keys == AllZones
  }

  /** The zones whose highlight is set. */
  function Highlighted(v: View): set<Zone>
  {
    set z | z in AllZones && z in v.boxShadow && v.boxShadow[z] != ""
  }

  /** The view with the timer bookkeeping erased: what a user can see. */
  function Visible(v: View): View
  {
    v.(banner := v.banner.(pendingSuccessTimers := 0, pendingErrorTimers := 0))
  }

  /** `toggleOverlay()`. */
  function ToggleOverlay(v: View, p: Page): View
  {
    match Validation(p.present)
    case Fail(e) =>
      v.(banner := ShowError(v.banner, ContainerPresent(p), ToggleFailurePrefix + e))
    case Pass =>
      if !v.overlayVisible then
        v.(overlayVisible := true, overlayDisplay := Block, toggleLabel := HideLabel,
           banner := ShowSuccess(v.banner, ContainerPresent(p), "Overlay shown"))
      else
        v.(overlayVisible := false, overlayDisplay := Hidden, toggleLabel := ShowLabel,
           banner := ShowSuccess(v.banner, ContainerPresent(p), "Overlay hidden"))
  }

  /** `resetView()`; the drone and pulse animations are not part of the
      view state. */
  function ResetView(v: View, p: Page): View
  {
    match Validation(p.present)
    case Fail(e) =>
      v.(banner := ShowError(v.banner, ContainerPresent(p), ResetFailurePrefix + e))
    case Pass =>
      v.(overlayVisible := true, overlayDisplay := Block, toggleLabel := HideLabel,
         banner := ShowSuccess(v.banner, ContainerPresent(p), "View reset successfully"))
  }

  /** `setupOverlayInteractions()`: registers the zone click listeners. */
  function SetupOverlayInteractions(v: View, p: Page): View
  {
    match Validation(p.present)
    case Fail(e) =>
      v.(banner := ShowError(v.banner, ContainerPresent(p), SetupFailurePrefix + e))
    case Pass =>
      v.(zoneListeners := true)
  }

  /** A click on zone `z`: without a registered listener nothing happens;
      otherwise every zone is cleared, `z` is highlighted and its label is
      reported. */
  function ZoneClick(v: View, p: Page, z: Zone): View
  {
    if !v.zoneListeners then v
    else
      v.(boxShadow := ClearShadows(v.boxShadow, Zones)[z := Highlight],
         banner := ShowSuccess(v.banner, ContainerPresent(p),
                               SelectedPrefix + LevelText(LevelAttr(p, z))))
  }

  /** The auto-hide callback of a `showSuccess` call runs. */
  function SuccessTimer(v: View): View
    requires v.banner.pendingSuccessTimers > 0
  {
    v.(banner := SuccessTimerFires(v.banner))
  }

  /** The auto-hide callback of a `showError` call runs. */
  function ErrorTimer(v: View): View
    requires v.banner.pendingErrorTimers > 0
  {
    v.(banner := ErrorTimerFires(v.banner))
  }

  // ---------------------------------------------------------------------
  // Properties of the commands

  /** Every command and timer keeps the invariant. */
  lemma CommandsKeepConsistent(v: View, p: Page, z: Zone)
    requires Consistent(v, p)
    ensures Consistent(ToggleOverlay(v, p), p)
    ensures Consistent(ResetView(v, p), p)
    ensures Consistent(SetupOverlayInteractions(v, p), p)
    ensures Consistent(ZoneClick(v, p, z), p)
    ensures v.banner.pendingSuccessTimers > 0 ==> Consistent(SuccessTimer(v), p)
    ensures v.banner.pendingErrorTimers > 0 ==> Consistent(ErrorTimer(v), p)
  {
    ValidationSpec(p.present);
    ClearShadowsBlanks(v.boxShadow, Zones);
  }

  /** A successful toggle negates the flag, brings display and label in
      line with it and reports the new state; nothing else changes. */
  lemma ToggleSucceeds(v: View, p: Page)
    requires AllPresent(p.present)
    ensures var r := ToggleOverlay(v, p);
      r.overlayVisible == !v.overlayVisible && Synced(r) &&
      r.banner == ShowSuccess(v.banner, true,
                              if r.overlayVisible then "Overlay shown" else "Overlay hidden") &&
      r.boxShadow == v.boxShadow && r.zoneListeners == v.zoneListeners
  {
    ValidationSpec(p.present);
  }

  /** Two toggles restore the flag whatever the page; when display and
      label agreed with the flag, they are restored as well. */
  lemma ToggleTwiceRestores(v: View, p: Page)
    ensures ToggleOverlay(ToggleOverlay(v, p), p).overlayVisible == v.overlayVisible
    ensures Synced(v) ==>
      var r := ToggleOverlay(ToggleOverlay(v, p), p);
      r.overlayDisplay == v.overlayDisplay && r.toggleLabel == v.toggleLabel &&
      r.boxShadow == v.boxShadow
  {
    ValidationSpec(p.present);
  }

  /** A successful reset shows the overlay with the "Hide Overlay" label
      whatever the prior state, leaves the zone highlights alone and
      reports success. */
  lemma ResetSucceeds(v: View, p: Page)
    requires AllPresent(p.present)
    ensures var r := ResetView(v, p);
      r.overlayVisible && r.overlayDisplay == Block && r.toggleLabel == HideLabel &&
      Synced(r) && r.boxShadow == v.boxShadow && r.zoneListeners == v.zoneListeners &&
      r.banner == ShowSuccess(v.banner, true, "View reset successfully")
  {
    ValidationSpec(p.present);
  }

  /** A reset never touches the zone highlights, and a second reset shows
      the user exactly what the first did. */
  lemma ResetIdempotent(v: View, p: Page)
    ensures ResetView(v, p).boxShadow == v.boxShadow
    ensures Visible(ResetView(ResetView(v, p), p)) == Visible(ResetView(v, p))
  {
  }

  /** When validation fails, a command changes nothing but the banner,
      which shows the command's prefix followed by the message naming the
      first missing handle; with the banner itself missing, nothing at all
      changes. */
  lemma FailedValidationOnlyTouchesBanner(v: View, p: Page)
    requires !AllPresent(p.present)
    ensures Validation(p.present).Fail?
    ensures var e := Validation(p.present).error;
      (exists k :: 0 <= k < |Order| && Order[k] !in p.present &&
         (forall j :: 0 <= j < k ==> Order[j] in p.present) &&
         e == MissingMessage(Order[k])) &&
      ToggleOverlay(v, p) ==
        v.(banner := ShowError(v.banner, ContainerPresent(p), ToggleFailurePrefix + e)) &&
      ResetView(v, p) ==
        v.(banner := ShowError(v.banner, ContainerPresent(p), ResetFailurePrefix + e)) &&
      SetupOverlayInteractions(v, p) ==
        v.(banner := ShowError(v.banner, ContainerPresent(p), SetupFailurePrefix + e))
    ensures !ContainerPresent(p) ==>
      ToggleOverlay(v, p) == v && ResetView(v, p) == v && SetupOverlayInteractions(v, p) == v
  {
    ValidationSpec(p.present);
  }

  /** A click on a listening zone leaves that zone, and only that one,
      highlighted, and changes nothing but the highlights and the banner. */
  lemma ZoneClickHighlightsOnlyClicked(v: View, p: Page, z: Zone)
    requires v.zoneListeners
    ensures var r := ZoneClick(v, p, z);
      Highlighted(r) == {z} &&
      r.boxShadow[z] == Highlight &&
      (forall o :: o in AllZones && o != z ==> o in r.boxShadow && r.boxShadow[o] == "") &&
      r == v.(boxShadow := r.boxShadow, banner := r.banner)
  {
    ClearShadowsBlanks(v.boxShadow, Zones);
    var r := ZoneClick(v, p, z);
    forall o | o in AllZones && o != z ensures o in r.boxShadow && r.boxShadow[o] == "" {
      assert o in Zones;
    }
    assert Highlighted(r) == {z};
  }

  /** The click reports "Selected zone: " and the zone's label when the
      markup gives the zone its usual `data-level`. */
  lemma ZoneClickReportsLabel(v: View, p: Page, z: Zone)
    requires Consistent(v, p) && v.zoneListeners
    requires z in p.dataLevel && p.dataLevel[z] == CanonicalLevel(z)
    ensures ZoneClick(v, p, z).banner ==
      ShowSuccess(v.banner, true, SelectedPrefix + ZoneLabel(z))
    ensures ZoneClick(v, p, z).banner.content == Some(Notice(Success, SelectedPrefix + ZoneLabel(z)))
  {
    assert ErrorContainer in p.present;
    LevelNamesMatchZones(p.dataLevel[z]);
  }

  /** A click reports "undefined" for a zone without a recognised
      `data-level`, and is ignored before the listeners are registered. */
  lemma ZoneClickEdgeCases(v: View, p: Page, z: Zone)
    ensures !v.zoneListeners ==> ZoneClick(v, p, z) == v
    ensures Consistent(v, p) && v.zoneListeners &&
            (z !in p.dataLevel || LevelName(p.dataLevel[z]).None?) ==>
      ZoneClick(v, p, z).banner.content == Some(Notice(Success, SelectedPrefix + "undefined"))
  {
    if Consistent(v, p) && v.zoneListeners {
      assert ErrorContainer in p.present;
    }
  }

  /** Repeating a click shows the user nothing new. */
  lemma ZoneClickIdempotent(v: View, p: Page, z: Zone)
    ensures Visible(ZoneClick(ZoneClick(v, p, z), p, z)) == Visible(ZoneClick(v, p, z))
  {
    if v.zoneListeners {
      var r := ZoneClick(v, p, z);
      ClearShadowsBlanks(v.boxShadow, Zones);
      ClearShadowsBlanks(r.boxShadow, Zones);
      assert ClearShadows(r.boxShadow, Zones)[z := Highlight] == r.boxShadow;
    }
  }

  /** Once display and label agree with the flag, every command and timer
      keeps them in agreement. */
  lemma CommandsKeepSynced(v: View, p: Page, z: Zone)
    requires Synced(v)
    ensures Synced(ToggleOverlay(v, p))
    ensures Synced(ResetView(v, p))
    ensures Synced(SetupOverlayInteractions(v, p))
    ensures Synced(ZoneClick(v, p, z))
    ensures v.banner.pendingSuccessTimers > 0 ==> Synced(SuccessTimer(v))
    ensures v.banner.pendingErrorTimers > 0 ==> Synced(ErrorTimer(v))
  {
  }

  /** A full session on a complete page: set up, toggle, pick the warning
      zone, reset. The reset shows the overlay again but, as written, keeps
      the warning zone highlighted. */
  lemma Session(markupLabel: string, p: Page)
    requires AllPresent(p.present)
    requires forall z :: z in p.dataLevel && p.dataLevel[z] == CanonicalLevel(z)
    ensures var s0 := SetupOverlayInteractions(Initial(markupLabel), p);
      var s1 := ToggleOverlay(s0, p);
      var s2 := ZoneClick(s1, p, Warning);
      var s3 := ResetView(s2, p);
      s0.zoneListeners &&
      !s1.overlayVisible && s1.overlayDisplay == Hidden && s1.toggleLabel == ShowLabel &&
      s1.banner.content == Some(Notice(Success, "Overlay hidden")) &&
      s2.banner.content == Some(Notice(Success, "Selected zone: Warning (Yellow)")) &&
      Highlighted(s2) == {Warning} &&
      s3.overlayVisible && s3.overlayDisplay == Block && s3.toggleLabel == HideLabel &&
      Highlighted(s3) == {Warning} &&
      s3.banner.content == Some(Notice(Success, "View reset successfully"))
  {
    ValidationSpec(p.present);
    var s0 := SetupOverlayInteractions(Initial(markupLabel), p);
    var s1 := ToggleOverlay(s0, p);
    ToggleSucceeds(s0, p);
    CommandsKeepConsistent(Initial(markupLabel), p, Warning);
    CommandsKeepConsistent(s0, p, Warning);
    ZoneClickReportsLabel(s1, p, Warning);
    ZoneClickHighlightsOnlyClicked(s1, p, Warning);
    ResetSucceeds(ZoneClick(s1, p, Warning), p);
    assert SelectedPrefix + ZoneLabel(Warning) == "Selected zone: Warning (Yellow)";
  }
}
