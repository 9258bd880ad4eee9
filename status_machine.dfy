/**
 * The shipment status enum and its fixed table of allowed transitions
 * (app/Enums/ShipmentStatus.php).
 */
module StatusMachine {
  import opened Wrappers

  /**
   * The nine cases of the enum, plus `Created`: the carrier flow assigns a
   * CREATED status that the enum does not declare. It has no key in the
   * transition table, so it has neither outgoing nor incoming edges.
   */
  datatype ShipmentStatus =
    | Draft
    | PendingPayment
    | Paid
    | LabelReady
    | Manifested
    | Shipped
    | Delivered
    | Cancelled
    | Returned
    | Created

  /** The enum's backing string value. */
  function Value(s: ShipmentStatus): string
  {
    match s
    case Draft => "DRAFT"
    case PendingPayment => "PENDING_PAYMENT"
    case Paid => "PAID"
    case LabelReady => "LABEL_READY"
    case Manifested => "MANIFESTED"
    case Shipped => "SHIPPED"
    case Delivered => "DELIVERED"
    case Cancelled => "CANCELLED"
    case Returned => "RETURNED"
    case Created => "CREATED"
  }

  /**
   * The transition map, keyed by status: `None` when the status has no key
   * in the map.
   */
  function AllowedTransitions(from: ShipmentStatus): (r: Option<seq<ShipmentStatus>>)
    ensures r.None? <==> from == Created
    ensures r.Some? ==> forall i :: 0 <= i < |r.value| ==> r.value[i] != from && r.value[i] != Created
  {
    match from
    case Draft => Some([PendingPayment, Cancelled])
    case PendingPayment => Some([Paid, Cancelled])
    case Paid => Some([LabelReady, Cancelled])
    case LabelReady => Some([Manifested])
    case Manifested => Some([Shipped])
    case Shipped => Some([Delivered, Returned])
    case Delivered => Some([])
    case Cancelled => Some([])
    case Returned => Some([])
    case Created => None
  }

  /** `canTransitionTo`: membership in the table entry, `[]` for a missing key. */
  predicate CanTransitionTo(from: ShipmentStatus, to: ShipmentStatus)
    ensures CanTransitionTo(from, to) ==> from != to && from != Created && to != Created
  {
    to in AllowedTransitions(from).GetOr([])
  }

  /** The ten edges of the table, written out as pairs. */
  const Edges: set<(ShipmentStatus, ShipmentStatus)> :=
    {
      (Draft, PendingPayment), (Draft, Cancelled),
      (PendingPayment, Paid), (PendingPayment, Cancelled),
      (Paid, LabelReady), (Paid, Cancelled),
      (LabelReady, Manifested),
      (Manifested, Shipped),
      (Shipped, Delivered), (Shipped, Returned)
    }

  lemma CanTransitionToExactlyTheTable(from: ShipmentStatus, to: ShipmentStatus)
    ensures CanTransitionTo(from, to) <==> (from, to) in Edges
  {
  }

  lemma TableHasTenEdges()
    ensures |Edges| == 10
  {
  }

  predicate IsTerminal(s: ShipmentStatus)
  {
    s == Delivered || s == Cancelled || s == Returned
  }

  /** Terminal statuses have an empty entry: nothing leaves them. */
  lemma TerminalHasNoExit(s: ShipmentStatus, to: ShipmentStatus)
    requires IsTerminal(s)
    ensures AllowedTransitions(s) == Some([])
    ensures !CanTransitionTo(s, to)
  {
  }

  /** A status without a key in the map has no outgoing transition. */
  lemma MissingKeyHasNoExit(s: ShipmentStatus, to: ShipmentStatus)
    requires AllowedTransitions(s).None?
    ensures s == Created
    ensures !CanTransitionTo(s, to)
  {
  }

  /** Nothing moves into Created either: it appears in no table entry. */
  lemma NothingEntersCreated(s: ShipmentStatus)
    ensures !CanTransitionTo(s, Created)
  {
  }

  /** No self-loops: repeating a transition is refused, not a no-op. */
  lemma NoSelfTransition(s: ShipmentStatus)
    ensures !CanTransitionTo(s, s)
  {
  }

  /** Cancellation is reachable in one step from exactly three statuses. */
  lemma CancelledOnlyEarly(s: ShipmentStatus)
    ensures CanTransitionTo(s, Cancelled) <==> s in {Draft, PendingPayment, Paid}
  {
  }

  /** Position in the lifecycle: every edge strictly increases it. */
  function Rank(s: ShipmentStatus): nat
  {
    match s
    case Draft => 0
    case PendingPayment => 1
    case Paid => 2
    case LabelReady => 3
    case Manifested => 4
    case Shipped => 5
    case Delivered => 6
    case Cancelled => 6
    case Returned => 6
    case Created => 0
  }

  lemma EdgeMovesForward(from: ShipmentStatus, to: ShipmentStatus)
    requires CanTransitionTo(from, to)
    ensures Rank(from) < Rank(to)
  {
  }

  /** The error `assertCanTransition` raises: a LogicException. */
  datatype TransitionViolation = TransitionViolation(from: ShipmentStatus, to: ShipmentStatus)
  {
    function Message(): string
    {
      "Invalid shipment status transition: " + Value(from) + " -> " + Value(to)
    }
  }

  /** `assertCanTransition`: raises exactly on a forbidden edge, otherwise does nothing. */
  function AssertCanTransition(from: ShipmentStatus, to: ShipmentStatus): (r: Outcome<TransitionViolation>)
    ensures r.Pass? <==> CanTransitionTo(from, to)
    ensures r.Fail? ==> r.error == TransitionViolation(from, to)
  {
    if !CanTransitionTo(from, to) then Fail(TransitionViolation(from, to)) else Pass
  }

  /**
   * The controllers' guarded write `if ($s->canTransitionTo($to)) $s = $to;`:
   * move along the edge when it exists, otherwise stay, without raising.
   */
  function GuardedStep(from: ShipmentStatus, to: ShipmentStatus): (r: ShipmentStatus)
    ensures CanTransitionTo(from, to) ==> r == to
    ensures !CanTransitionTo(from, to) ==> r == from
  {
    if CanTransitionTo(from, to) then to else from
  }

  /** A guarded write delivered twice has the effect of one delivery. */
  lemma GuardedStepIdempotent(from: ShipmentStatus, to: ShipmentStatus)
    ensures GuardedStep(GuardedStep(from, to), to) == GuardedStep(from, to)
  {
    NoSelfTransition(to);
  }

  /** A guarded write never leaves a terminal status and never moves backwards. */
  lemma GuardedStepMonotone(from: ShipmentStatus, to: ShipmentStatus)
    ensures IsTerminal(from) ==> GuardedStep(from, to) == from
    ensures GuardedStep(from, to) == from || Rank(from) < Rank(GuardedStep(from, to))
  {
    if CanTransitionTo(from, to) {
      EdgeMovesForward(from, to);
    }
  }

  // ---------------------------------------------------------------------
  // Sequences of transitions

  /** Every hop of `p` is an edge of the table. */
  predicate IsWalk(p: seq<ShipmentStatus>)
  {
    forall i :: 0 <= i < |p| - 1 ==> CanTransitionTo(p[i], p[i + 1])
  }

  /** Along a walk the lifecycle position strictly increases. */
  lemma {:induction false} WalkMovesForward(p: seq<ShipmentStatus>, i: nat, j: nat)
    requires IsWalk(p)
    requires i < j < |p|
    ensures Rank(p[i]) < Rank(p[j])
    decreases j - i
  {
    EdgeMovesForward(p[i], p[i + 1]);
    if i + 1 < j {
      WalkMovesForward(p, i + 1, j);
    }
  }

  /** The edge relation is acyclic: a walk never revisits a status. */
  lemma WalkNeverRevisits(p: seq<ShipmentStatus>, i: nat, j: nat)
    requires IsWalk(p)
    requires i < j < |p|
    ensures p[i] != p[j]
  {
    WalkMovesForward(p, i, j);
  }

  /** No sequence of allowed transitions leaves a terminal status. */
  lemma WalkFromTerminalIsTrivial(p: seq<ShipmentStatus>)
    requires IsWalk(p) && |p| > 0 && IsTerminal(p[0])
    ensures |p| == 1
  {
    if |p| > 1 {
      TerminalHasNoExit(p[0], p[1]);
    }
  }

  /**
   * Driving a shipment through `p` by calling `assertCanTransition` at every
   * hop, stopping at the first exception.
   */
  function Drive(p: seq<ShipmentStatus>): (r: Outcome<TransitionViolation>)
    ensures r.Fail? ==> |p| >= 2 && !CanTransitionTo(r.error.from, r.error.to)
    ensures r.Fail? ==> r.error.from in p && r.error.to in p
    decreases |p|
  {
    if |p| < 2 then Pass
    else match AssertCanTransition(p[0], p[1])
      case Fail(e) => Fail(e)
      case Pass => Drive(p[1..])
  }

  /** Driving succeeds exactly on walks. */
  lemma {:induction false} DrivePassesExactlyWalks(p: seq<ShipmentStatus>)
    ensures Drive(p) == Pass <==> IsWalk(p)
    decreases |p|
  {
    if |p| >= 2 {
      DrivePassesExactlyWalks(p[1..]);
      if IsWalk(p) {
        assert IsWalk(p[1..]) by {
          forall i | 0 <= i < |p[1..]| - 1
            ensures CanTransitionTo(p[1..][i], p[1..][i + 1])
          {
            assert CanTransitionTo(p[i + 1], p[i + 2]);
          }
        }
      }
      if CanTransitionTo(p[0], p[1]) && IsWalk(p[1..]) {
        forall i | 0 <= i < |p| - 1
          ensures CanTransitionTo(p[i], p[i + 1])
        {
          if i > 0 {
            assert p[i] == p[1..][i - 1] && p[i + 1] == p[1..][i];
          }
        }
      }
    }
  }

  /** Driving fails at the first forbidden hop, naming that hop. */
  lemma {:induction false} DriveFailsAtFirstBadHop(p: seq<ShipmentStatus>, k: nat)
    requires k + 1 < |p|
    requires forall i :: 0 <= i < k ==> CanTransitionTo(p[i], p[i + 1])
    requires !CanTransitionTo(p[k], p[k + 1])
    ensures Drive(p) == Fail(TransitionViolation(p[k], p[k + 1]))
    decreases k
  {
    if k > 0 {
      assert CanTransitionTo(p[0], p[1]);
      var q := p[1..];
      forall i | 0 <= i < k - 1
        ensures CanTransitionTo(q[i], q[i + 1])
      {
        assert q[i] == p[i + 1] && q[i + 1] == p[i + 2];
      }
      DriveFailsAtFirstBadHop(q, k - 1);
    }
  }

  /** The intended lifecycle, from intake to delivery. */
  const HappyPath: seq<ShipmentStatus> :=
    [Draft, PendingPayment, Paid, LabelReady, Manifested, Shipped, Delivered]

  lemma HappyPathPasses()
    ensures IsWalk(HappyPath)
    ensures Drive(HappyPath) == Pass
  {
    DrivePassesExactlyWalks(HappyPath);
  }

  /**
   * Replacing the target of any single hop of the happy path by a status the
   * table does not allow there makes the drive fail at exactly that hop.
   */
  lemma HappyPathBrokenHopFails(k: nat, t: ShipmentStatus)
    requires k + 1 < |HappyPath|
    requires !CanTransitionTo(HappyPath[k], t)
    ensures Drive(HappyPath[k + 1 := t]) == Fail(TransitionViolation(HappyPath[k], t))
  {
    var p := HappyPath[k + 1 := t];
    forall i | 0 <= i < k
      ensures CanTransitionTo(p[i], p[i + 1])
    {
      assert p[i] == HappyPath[i] && p[i + 1] == HappyPath[i + 1];
    }
    DriveFailsAtFirstBadHop(p, k);
  }
}
