/** The nine element handles the controller depends on, and the check
    `validateElements` that runs before `toggleOverlay`, `resetView` and
    `setupOverlayInteractions`. */
module Elements {
  import opened Wrappers

  /** The module-level handles, one per looked-up page element. */
  datatype Handle =
    | Drone | SatelliteView | Overlay | ToggleOverlayBtn | ResetViewBtn
    | ErrorContainer | SafeZone | WarningZone | CriticalZone

  /** The property name under which a handle appears in the object that
      `validateElements` scans (the variable name of the handle). */
  function Name(h: Handle): string
  {
    match h
    case Drone => "drone"
    case SatelliteView => "satelliteView"
    case Overlay => "overlay"
    case ToggleOverlayBtn => "toggleOverlayBtn"
    case ResetViewBtn => "resetViewBtn"
    case ErrorContainer => "errorContainer"
    case SafeZone => "safeZone"
    case WarningZone => "warningZone"
    case CriticalZone => "criticalZone"
  }

  /** The order in which the handles are visited (the insertion order of
      the object's keys). */
  const Order: seq<Handle> :=
    [Drone, SatelliteView, Overlay, ToggleOverlayBtn, ResetViewBtn,
     ErrorContainer, SafeZone, WarningZone, CriticalZone]

  const NotFoundPrefix: string := "Required element not found: "

  /** The message of the error thrown for a missing handle. */
  function MissingMessage(h: Handle): string
  {
    NotFoundPrefix + Name(h)
  }

  /** Every handle is looked up successfully. */
  predicate AllPresent(present: set<Handle>)
  {
    forall h: Handle :: h in present
  }

  /** The position of the first handle of `s` that is not present, or |s|
      when there is none. */
  function FirstMissingIndex(s: seq<Handle>, present: set<Handle>): (k: nat)
    ensures k <= |s|
    ensures forall j :: 0 <= j < k ==> s[j] in present
    ensures k < |s| ==> s[k] !in present
  {
    if s == [] then 0
    else if s[0] !in present then 0
    else 1 + FirstMissingIndex(s[1..], present)
  }

  /** What `validateElements` does, as a value: pass, or fail naming the
      first handle in `Order` that is absent. */
  function Validation(present: set<Handle>): Outcome
  {
    var k := FirstMissingIndex(Order, present);
    if k == |Order| then Pass else Fail(MissingMessage(Order[k]))
  }

  /** Each of the nine handles is visited exactly once. */
  lemma OrderListsEveryHandleOnce()
    ensures |Order| == 9
    ensures forall h: Handle :: h in Order
    ensures forall i, j :: 0 <= i < j < |Order| ==> Order[i] != Order[j]
  {
    forall h: Handle ensures h in Order {
      match h
      case Drone => assert Order[0] == h;
      case SatelliteView => assert Order[1] == h;
      case Overlay => assert Order[2] == h;
      case ToggleOverlayBtn => assert Order[3] == h;
      case ResetViewBtn => assert Order[4] == h;
      case ErrorContainer => assert Order[5] == h;
      case SafeZone => assert Order[6] == h;
      case WarningZone => assert Order[7] == h;
      case CriticalZone => assert Order[8] == h;
    }
  }

  /** No two handles share a name, so the message identifies the handle. */
  lemma NamesAreDistinct(h1: Handle, h2: Handle)
    requires h1 != h2
    ensures Name(h1) != Name(h2)
    ensures MissingMessage(h1) != MissingMessage(h2)
  {
    assert MissingMessage(h1)[|NotFoundPrefix|..] == Name(h1);
    assert MissingMessage(h2)[|NotFoundPrefix|..] == Name(h2);
  }

  /** Validation passes exactly when all nine handles are present; when it
      fails, it names an absent handle all of whose predecessors in `Order`
      are present. */
  lemma ValidationSpec(present: set<Handle>)
    ensures Validation(present).Pass? <==> AllPresent(present)
    ensures Validation(present).Fail? ==>
      exists k :: 0 <= k < |Order| && Order[k] !in present &&
        (forall j :: 0 <= j < k ==> Order[j] in present) &&
        Validation(present).error == MissingMessage(Order[k])
  {
    OrderListsEveryHandleOnce();
    var k := FirstMissingIndex(Order, present);
    if k == |Order| {
      forall h: Handle ensures h in present {
        assert h in Order;
        var i :| 0 <= i < |Order| && Order[i] == h;
      }
    }
  }

  /** `validateElements`: visits the handles in order and throws on the
      first absent one. */
  method ValidateElements(present: set<Handle>) returns (r: Outcome)
    ensures r == Validation(present)
    ensures r.Pass? <==> AllPresent(present)
    ensures r.Fail? ==> exists h :: h !in present && r.error == MissingMessage(h)
  {
    ValidationSpec(present);
    var i := 0;
    while i < |Order|
      invariant 0 <= i <= |Order|
      invariant forall j :: 0 <= j < i ==> Order[j] in present
    {
      if Order[i] !in present {
        return Fail(MissingMessage(Order[i]));
      }
      i := i + 1;
    }
    return Pass;
  }
}
