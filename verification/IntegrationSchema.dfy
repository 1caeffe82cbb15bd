/** The Ticket statuses and the transition table integration reads (integration_schema.py). */
module IntegrationSchema {
  import opened Common

  datatype Status =
    | Ready
    | ReadyForIntegration
    | Integrating
    | NeedsReview
    | NeedsDecision
    | Paused
    | Cancelled
    | Completed

  /** `INTEGRATION_TRANSITIONS`: None for a status the controller does not own. */
  function Transitions(current: Status): Option<set<Status>>
  {
    match current
    case ReadyForIntegration => Some({Integrating, Cancelled, Completed})
    case Integrating => Some({ReadyForIntegration, NeedsReview, NeedsDecision})
    case NeedsReview => Some({ReadyForIntegration, NeedsDecision, Cancelled, Completed, Ready})
    case NeedsDecision => Some({Cancelled, Completed})
    case Paused => Some({Cancelled, Completed})
    case Cancelled => Some({})
    case Completed => Some({})
    case Ready => None
  }

  predicate CanTransition(current: Status, target: Status)
  {
    Transitions(current).Some? && target in Transitions(current).value
  }

  datatype TransitionError = NotOwned(status: Status) | NotAllowed(current: Status, target: Status)

  /** The moves integration may make, pair by pair; a status with none of its own is not owned. */
  function ValidateTransition(current: Status, target: Status): (r: Result<(), TransitionError>)
    ensures r.Ok? <==> (current, target) in {
              (ReadyForIntegration, Integrating), (ReadyForIntegration, Cancelled), (ReadyForIntegration, Completed),
              (Integrating, ReadyForIntegration), (Integrating, NeedsReview), (Integrating, NeedsDecision),
              (NeedsReview, ReadyForIntegration), (NeedsReview, NeedsDecision), (NeedsReview, Cancelled),
              (NeedsReview, Completed), (NeedsReview, Ready),
              (NeedsDecision, Cancelled), (NeedsDecision, Completed), (Paused, Cancelled), (Paused, Completed)}
    ensures r.Ok? <==> CanTransition(current, target)
    ensures r.Err? ==> r.error == if current == Ready then NotOwned(current) else NotAllowed(current, target)
  {
    match Transitions(current)
    case None => Err(NotOwned(current))
    case Some(allowed) => if target in allowed then Ok(()) else Err(NotAllowed(current, target))
  }
}
