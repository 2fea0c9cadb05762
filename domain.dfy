/** The records the portal passes between its views, its store and its
    endpoint: complaints with their analysis, updates and feedback, and users.
    Optional fields of the source (`?:`) are `Option`s. */
module Domain {
  import opened Wrappers

  /** `ComplaintStatus`; the views single out NEW, CLOSED and SOLVED. */
  /** A status text other than the three the views single out. */
  type OtherStatusText = t: string | t != "NEW" && t != "CLOSED" && t != "SOLVED" witness "ACKNOWLEDGED"

  datatype Status = New | Closed | Solved | OtherStatus(text: OtherStatusText)

  /** The text an enum member carries, as it is written into the CSV export. */
  function StatusText(s: Status): string {
    match s
    case New => "NEW"
    case Closed => "CLOSED"
    case Solved => "SOLVED"
    case OtherStatus(t) => t
  }

  datatype Analysis = Analysis(
    category: Option<string>,
    priorityScore: Option<int>,
    sentiment: Option<string>)

  datatype UpdateKind = Message | InternalNote

  datatype TicketUpdate = TicketUpdate(
    timestamp: string,
    author: string,
    message: string,
    isInternal: bool,
    kind: UpdateKind)

  datatype Feedback = Feedback(rating: int, comment: string, timestamp: string)

  datatype Party = Party(name: string, address: string, pinCode: string)

  datatype Complaint = Complaint(
    id: string,
    userId: string,
    userName: string,
    description: string,
    trackingNumber: Option<string>,
    postOffice: string,
    date: string,
    imageUrl: Option<string>,
    status: Status,
    analysis: Option<Analysis>,
    updates: seq<TicketUpdate>,
    escalationLevel: int,
    lastActivityAt: string,
    slaPaused: bool,
    sender: Party,
    receiver: Party,
    assignedAgentId: Option<string>,
    feedback: Option<Feedback>)

  /** The role string of a user: `'user'` for citizens, `'agent'` for staff. */
  /** A role string other than `'user'` and `'agent'`. */
  type OtherRoleName = r: string | r != "user" && r != "agent" witness "admin"

  datatype Role = Citizen | Agent | OtherRole(name: OtherRoleName)

  datatype User = User(id: string, phone: string, name: string, email: string, role: Role)

  /** JavaScript truthiness of an optional string: present and non-empty. */
  predicate Truthy(s: Option<string>) {
    s.Some? && s.value != ""
  }

  /** `s || fallback` for an optional string. */
  function OrElse(s: Option<string>, fallback: string): (r: string)
    ensures Truthy(s) ==> r == s.value
    ensures !Truthy(s) ==> r == fallback
  {
    if Truthy(s) then s.value else fallback
  }

  /** `c.analysis?.priorityScore || 0`: a missing analysis or score counts as 0. */
  function Score(c: Complaint): int {
    if c.analysis.Some? && c.analysis.value.priorityScore.Some? then c.analysis.value.priorityScore.value else 0
  }

  predicate IsClosed(c: Complaint) {
    c.status == Closed
  }

  /** `list.map(c => c.id === id ? { ...c, feedback } : c)`, shared by the
      store endpoint and the app shell. */
  function WithFeedback(cs: seq<Complaint>, id: string, fb: Feedback): (r: seq<Complaint>)
    ensures |r| == |cs|
    ensures forall i :: 0 <= i < |cs| ==>
      r[i] == if cs[i].id == id then cs[i].(feedback := Some(fb)) else cs[i]
  {
    seq(|cs|, i requires 0 <= i < |cs| => if cs[i].id == id then cs[i].(feedback := Some(fb)) else cs[i])
  }

  /** Only the feedback of matching entries changes; ids and order are kept,
      and entries with another id are left as they were. */
  lemma WithFeedbackKeepsIds(cs: seq<Complaint>, id: string, fb: Feedback)
    ensures forall i :: 0 <= i < |cs| ==>
      WithFeedback(cs, id, fb)[i].id == cs[i].id
      && WithFeedback(cs, id, fb)[i] == cs[i].(feedback := WithFeedback(cs, id, fb)[i].feedback)
    ensures (forall i :: 0 <= i < |cs| ==> cs[i].id != id) ==> WithFeedback(cs, id, fb) == cs
  {
  }
}
