/**
 * The request and response records exchanged with the chat backend, the
 * canned response used in mock mode, and the outcome of `sendMessage`.
 * The HTTP transport itself is not modelled: its outcome is a parameter.
 */
module Api {
  import opened Wrappers

  /** The closed set of caller roles a request may carry. */
  datatype Role = CustomerService | Supervisor | Manager | Admin

  /** The wire spelling of each role. */
  function RoleName(r: Role): string
  {
    match r
    case CustomerService => "customer_service"
    case Supervisor => "supervisor"
    case Manager => "manager"
    case Admin => "admin"
  }

  /** Reads a role back from its wire spelling; no other string is a role. */
  function ParseRole(s: string): (r: Option<Role>)
    ensures r.Some? ==> RoleName(r.value) == s
  {
    if s == "customer_service" then Some(CustomerService)
    else if s == "supervisor" then Some(Supervisor)
    else if s == "manager" then Some(Manager)
    else if s == "admin" then Some(Admin)
    else None
  }

  /** The wire spellings are exactly the four role names, and each reads
      back as the role it came from. */
  lemma RoleNamesExactlyFour(r: Role)
    ensures ParseRole(RoleName(r)) == Some(r)
    ensures RoleName(r) in {"customer_service", "supervisor", "manager", "admin"}
  {
  }

  /** The closed four-level ticket priority, P1 the most urgent. */
  datatype Priority = P1 | P2 | P3 | P4

  /** The two-character code of a priority, as it travels on the wire. */
  function PriorityCode(p: Priority): (code: string)
    ensures |code| == 2 && code[0] == 'P'
    ensures code in {"P1", "P2", "P3", "P4"}
  {
    match p
    case P1 => "P1"
    case P2 => "P2"
    case P3 => "P3"
    case P4 => "P4"
  }

  /** Distinct priorities have distinct codes. */
  lemma PriorityCodeInjective(p: Priority, q: Priority)
    ensures PriorityCode(p) == PriorityCode(q) ==> p == q
  {
  }

  /** The agent name is a single-valued literal type. */
  datatype AgentName = TelecomMaster

  function AgentNameText(a: AgentName): string
  {
    "TelecomMaster"
  }

  /** A chat request: the free text, the caller's role and the caller's id. */
  datatype ChatRequest = ChatRequest(message: string, userRole: Role, userId: string)

  /** A ticket created by the backend. Every field is an opaque string
      except the priority. */
  datatype Ticket = Ticket(
    id: string,
    title: string,
    priority: Priority,
    category: string,
    team: string,
    status: string,
    complaintId: string)

  /** The backend's answer: the agent, a summary text, the created tickets in
      backend order, and the completion flag. */
  datatype ChatResponse = ChatResponse(
    agentName: AgentName,
    response: string,
    ticketsCreated: seq<Ticket>,
    processingComplete: bool)

  /** No two tickets in the list share an id. */
  predicate DistinctIds(ts: seq<Ticket>)
  {
    forall i, j :: 0 <= i < j < |ts| ==> ts[i].id != ts[j].id
  }

  const MockTickets: seq<Ticket> := [
    Ticket("TELECOM-001", "Network Outage - Downtown Area", P1,
           "Network", "Network Operations", "Open", "SP-44321"),
    Ticket("TELECOM-002", "Billing Discrepancy for Postpaid Plan", P3,
           "Billing", "Finance Support", "Open", "SP-44359"),
    Ticket("TELECOM-003", "Service Speed Below Contract Terms", P2,
           "Performance", "Technical Support", "In Progress", "SP-44387")
  ]

  /** The canned response returned in mock mode. */
  const MockResponse: ChatResponse := ChatResponse(
    TelecomMaster,
    "Processed latest SharePoint complaints and created prioritized Jira tickets. "
      + "I've analyzed 12 customer complaints and successfully created 3 high-priority "
      + "tickets for immediate attention.",
    MockTickets,
    true)

  /** The mock fixture: three tickets in order with distinct ids, priorities
      P1, P3, P2, a completed run, and a P1 ticket in the Network category. */
  lemma MockFixture()
    ensures |MockResponse.ticketsCreated| == 3
    ensures MockResponse.ticketsCreated[0].id == "TELECOM-001"
    ensures MockResponse.ticketsCreated[1].id == "TELECOM-002"
    ensures MockResponse.ticketsCreated[2].id == "TELECOM-003"
    ensures DistinctIds(MockResponse.ticketsCreated)
    ensures [MockResponse.ticketsCreated[0].priority, MockResponse.ticketsCreated[1].priority,
             MockResponse.ticketsCreated[2].priority] == [P1, P3, P2]
    ensures MockResponse.processingComplete
    ensures exists t :: t in MockResponse.ticketsCreated && t.priority == P1 && t.category == "Network"
  {
  }

  /** Which client is in use: the canned response or the HTTP backend. */
  datatype Mode = Mock | Live

  /** Mock mode is on exactly when the configuration flag is the string "true". */
  function ModeOf(useMockFlag: Option<string>): (m: Mode)
    ensures m == Mock <==> useMockFlag == Some("true")
  {
    if useMockFlag == Some("true") then Mock else Live
  }

  /** The ways the HTTP call can fail: a timeout, a non-2xx status, or a
      connection error. */
  datatype TransportError = Timeout | BadStatus(code: int) | ConnectionError(detail: string)

  /** What the HTTP call produced: the response body, or a transport error. */
  datatype Transport = Delivered(data: ChatResponse) | Failed(error: TransportError)

  /** The single message every live-mode failure is reported with. */
  const FailureMessage: string := "Failed to process request. Please try again."

  /** `sendMessage`: in mock mode the canned response, whatever the request
      and whatever the network would have done; in live mode the backend's
      answer, or the fixed failure message for any transport error. */
  function SendMessage(mode: Mode, request: ChatRequest, transport: Transport): (r: Result<ChatResponse>)
    ensures mode == Mock ==> r == Ok(MockResponse)
    ensures mode == Live && transport.Delivered? ==> r == Ok(transport.data)
    ensures mode == Live && transport.Failed? ==> r == Err(FailureMessage)
  {
    match mode
    case Mock => Ok(MockResponse)
    case Live =>
      match transport
      case Delivered(data) => Ok(data)
      case Failed(_) => Err(FailureMessage)
  }

  /** Mock mode ignores the request: any two requests get the same answer. */
  lemma MockIgnoresRequest(a: ChatRequest, b: ChatRequest, ta: Transport, tb: Transport)
    ensures SendMessage(Mock, a, ta) == SendMessage(Mock, b, tb)
  {
  }

  /** Live-mode failures are indistinguishable to the caller: any two failed
      transports yield the same error. */
  lemma LiveFailuresCollapse(a: ChatRequest, b: ChatRequest, ea: TransportError, eb: TransportError)
    ensures SendMessage(Live, a, Failed(ea)) == SendMessage(Live, b, Failed(eb)) == Err(FailureMessage)
  {
  }
}
