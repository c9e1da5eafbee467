/** The handoff state machine (app/cases/lhp.py). */
module Lhp {
  import Types

  datatype Loop = Noc | Engineering | Knowledge | Soc

  datatype HandoffStatus =
    | Requested | Accepted | InProgress | ChangePlanned | Implemented | Blocked | Failed | NeedsHuman
    | Verified | Resolved | Cancelled | Expired

  predicate Terminal(s: HandoffStatus) {
    s.Resolved? || s.Cancelled? || s.Expired?
  }

  predicate VerifierOnly(s: HandoffStatus) {
    s.Verified? || s.Resolved?
  }

  /** The transition table. */
  function Successors(s: HandoffStatus): set<HandoffStatus> {
    match s
    case Requested => {Accepted, Blocked, Failed, NeedsHuman, Cancelled, Expired}
    case Accepted => {InProgress, Blocked, Failed, NeedsHuman, Cancelled, Expired}
    case InProgress => {Blocked, Failed, NeedsHuman, ChangePlanned, Implemented, Cancelled, Expired}
    case ChangePlanned => {Blocked, Failed, NeedsHuman, Implemented, Cancelled, Expired}
    case Implemented => {Failed, NeedsHuman, Verified, Cancelled, Expired}
    case Verified => {Resolved, Failed, NeedsHuman}
    case Blocked => {Accepted, NeedsHuman, Failed, Cancelled, Expired}
    case Failed => {Accepted, NeedsHuman, Cancelled, Expired}
    case NeedsHuman => {Accepted, InProgress, Cancelled, Expired}
    case Resolved => {}
    case Cancelled => {}
    case Expired => {}
  }

  /** The table read the other way: the statuses each status can be entered from. */
  lemma EnteredFrom(s: HandoffStatus, t: HandoffStatus)
    ensures t in Successors(s) <==>
              match t
              case Requested => false
              case Accepted => s in {Requested, Blocked, Failed, NeedsHuman}
              case InProgress => s in {Accepted, NeedsHuman}
              case ChangePlanned => s == InProgress
              case Implemented => s in {InProgress, ChangePlanned}
              case Verified => s == Implemented
              case Resolved => s == Verified
              case Blocked => s in {Requested, Accepted, InProgress, ChangePlanned}
              case Failed => s in {Requested, Accepted, InProgress, ChangePlanned, Implemented, Verified, Blocked}
              case NeedsHuman => s !in {Resolved, Cancelled, Expired, NeedsHuman}
              case Cancelled => s !in {Resolved, Cancelled, Expired, Verified}
              case Expired => s !in {Resolved, Cancelled, Expired, Verified}
  {
  }

  predicate Allowed(current: HandoffStatus, target: HandoffStatus, actor: Loop) {
    !(VerifierOnly(target) && actor != Noc) && (current == target || target in Successors(current))
  }

  /** The case status a handoff status implies. */
  function CaseStatusFor(s: HandoffStatus): Types.CaseStatus {
    match s
    case Requested => Types.HandoffRequested
    case Accepted => Types.HandoffInProgress
    case InProgress => Types.HandoffInProgress
    case ChangePlanned => Types.HandoffInProgress
    case Implemented => Types.VerificationPending
    case Blocked => Types.CaseStatus.Blocked
    case Failed => Types.CaseStatus.Failed
    case NeedsHuman => Types.CaseStatus.NeedsHuman
    case Verified => Types.VerificationPending
    case Resolved => Types.VerificationPending
    case Cancelled => Types.Investigating
    case Expired => Types.Investigating
  }

  /** The handoff statuses behind each status of a case. */
  lemma CaseStatusIff(s: HandoffStatus)
    ensures CaseStatusFor(s) == Types.HandoffRequested <==> s == Requested
    ensures CaseStatusFor(s) == Types.HandoffInProgress <==> s in {Accepted, InProgress, ChangePlanned}
    ensures CaseStatusFor(s) == Types.VerificationPending <==> s in {Implemented, Verified, Resolved}
    ensures CaseStatusFor(s) == Types.CaseStatus.Blocked <==> s == Blocked
    ensures CaseStatusFor(s) == Types.CaseStatus.Failed <==> s == Failed
    ensures CaseStatusFor(s) == Types.CaseStatus.NeedsHuman <==> s == NeedsHuman
    ensures CaseStatusFor(s) == Types.Investigating <==> s in {Cancelled, Expired}
  {
  }

  /** What ends a handoff is what the table leads nowhere from, and only the verifier's own
      loop may ask for verified or resolved. */
  lemma EndsIff(s: HandoffStatus, t: HandoffStatus, actor: Loop)
    ensures Terminal(s) <==> forall u :: u !in Successors(s)
    ensures Allowed(s, t, actor) && actor != Noc ==> t != Verified && t != Resolved
    ensures Allowed(s, t, Noc) <==> s == t || t in Successors(s)
    ensures t != Verified && t != Resolved ==> (Allowed(s, t, actor) <==> s == t || t in Successors(s))
  {
    assert Successors(s) == {} || Accepted in Successors(s) || Failed in Successors(s);
  }

  lemma CaseEndsIff(s: Types.CaseStatus)
    ensures TerminalCase(s) <==>
              s in {Types.CaseStatus.Resolved, Types.CaseStatus.Closed, Types.CaseStatus.Expired,
                    Types.CaseStatus.Linked}
  {
  }

  predicate TerminalCase(s: Types.CaseStatus) {
    s.Resolved? || s.Closed? || s.Expired? || s.Linked?
  }
}
