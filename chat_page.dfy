/**
 * The chat page: the session state (which view is shown, whether a request
 * is loading, the last response), the handlers that change it, and the
 * choice of what is drawn for a given state.
 *
 * A request's completion is an event of its own that may arrive in any
 * state: the page does not check, when a request finishes, whether the user
 * cancelled it or started another one meanwhile.
 */
module ChatPage {
  import opened Wrappers
  import opened Text
  import opened Api
  import opened TicketCard
  import opened ChatBox

  datatype ViewState = Empty | Processing | Results

  /** The page's state. */
  datatype Session = Session(view: ViewState, isLoading: bool, response: Option<ChatResponse>)

  /** The state a page starts in: the empty view, not loading, no response. */
  const Initial: Session := Session(Empty, false, None)

  /** What can happen to the page: a submission from the box, the end of a
      request (its outcome), the Cancel button, the Start New Session button. */
  datatype Event = Submit(message: string) | Completed(outcome: Result<ChatResponse>) | Cancel | Reset

  /** The fixed caller the page sends every request as. */
  const DemoUserId: string := "demo-user-001"

  /** The request a submission sends: the message exactly as received, as a
      customer-service user with the demo id. */
  function RequestFor(message: string): (req: ChatRequest)
    ensures req.message == message
    ensures req.userRole == CustomerService && RoleName(req.userRole) == "customer_service"
    ensures req.userId == DemoUserId
  {
    ChatRequest(message, CustomerService, DemoUserId)
  }

  /** The effect of one event on the state. A submission starts loading and
      shows the processing view; a completion stops loading and shows the
      results (storing the response) or, on failure, the empty view (keeping
      whatever response was stored); cancel stops loading and shows the empty
      view; reset shows the empty view and drops the response. */
  function Next(s: Session, e: Event): (r: Session)
    // only a submission starts loading; a completion or a cancel stops it
    ensures r.isLoading && !s.isLoading ==> e.Submit?
    ensures e.Completed? || e.Cancel? ==> !r.isLoading
    // the results view is entered only by a success
    ensures r.view == Results <==> e.Completed? && e.outcome.Ok?
    // the stored response changes only on a success or a reset
    ensures r.response != s.response ==> e.Reset? || (e.Completed? && e.outcome.Ok?)
  {
    match e
    case Submit(_) => Session(Processing, true, s.response)
    case Completed(Ok(r)) => Session(Results, false, Some(r))
    case Completed(Err(_)) => Session(Empty, false, s.response)
    case Cancel => Session(Empty, false, s.response)
    case Reset => Session(Empty, s.isLoading, None)
  }

  /** The state after a sequence of events, in order. */
  function Run(s: Session, events: seq<Event>): Session
    decreases |events|
  {
    if events == [] then s else Run(Next(s, events[0]), events[1..])
  }

  // ---------------------------------------------------------------------
  // What is drawn

  /** What the page draws. `Nothing` is drawn when the results view is
      selected but no response is stored. */
  datatype Screen =
    | EmptyScreen(box: Props)
    | ProcessingScreen(box: Props)
    | ResultsScreen(
        box: Props,
        agent: string,
        summary: string,
        completeBadge: bool,
        grid: Option<seq<Card>>,
        noTicketsNotice: bool)
    | Nothing

  /** The ticket cards, one per ticket, in list order. */
  function Cards(ts: seq<Ticket>): (cs: seq<Card>)
    ensures |cs| == |ts|
    ensures forall i :: 0 <= i < |ts| ==> cs[i] == CardOf(ts[i])
    decreases |ts|
  {
    if ts == [] then [] else [CardOf(ts[0])] + Cards(ts[1..])
  }

  /** The results screen for a response: the box with no cancel handler and
      the refine placeholder, the agent's answer, and either the ticket grid
      (with the Start New Session button) or the no-tickets notice. */
  function ResultsScreenOf(isLoading: bool, r: ChatResponse): (screen: Screen)
    ensures screen.ResultsScreen?
    ensures !screen.box.disabled && !screen.box.hasCancel && screen.box.placeholder == RefinePlaceholder
    ensures screen.agent == "TelecomMaster"
    ensures screen.summary == r.response && screen.completeBadge == r.processingComplete
    ensures screen.grid.Some? <==> |r.ticketsCreated| > 0
    ensures screen.noTicketsNotice <==> screen.grid.None?
  {
    ResultsScreen(
      Props(isLoading, false, false, RefinePlaceholder),
      AgentNameText(r.agentName), r.response, r.processingComplete,
      if |r.ticketsCreated| > 0 then Some(Cards(r.ticketsCreated)) else None,
      |r.ticketsCreated| == 0)
  }

  /** Draws a state. In the empty view the box may be cancelled; in the
      processing view it is also disabled; the results view needs a stored
      response, and nothing is drawn without one. */
  function Render(s: Session): (screen: Screen)
    ensures screen.EmptyScreen? <==> s.view == Empty
    ensures screen.ProcessingScreen? <==> s.view == Processing
    ensures screen.ResultsScreen? <==> s.view == Results && s.response.Some?
    // every drawn box shows the page's loading flag; only the processing
    // box is disabled, and only the results box has no cancel handler
    ensures !screen.Nothing? ==> screen.box.isLoading == s.isLoading
    ensures !screen.Nothing? ==> (screen.box.disabled <==> s.view == Processing)
    ensures !screen.Nothing? ==> (screen.box.hasCancel <==> s.view != Results)
  {
    match s.view
    case Empty => EmptyScreen(Props(s.isLoading, false, true, DefaultPlaceholder))
    case Processing => ProcessingScreen(Props(s.isLoading, true, true, DefaultPlaceholder))
    case Results => if s.response.Some? then ResultsScreenOf(s.isLoading, s.response.value) else Nothing
  }

  /** The input box on a screen, if one is drawn. */
  function BoxOf(screen: Screen): Option<Props>
  {
    if screen.Nothing? then None else Some(screen.box)
  }

  /** The Start New Session button sits in the ticket grid's header. */
  predicate ResetShown(screen: Screen)
  {
    screen.ResultsScreen? && screen.grid.Some?
  }

  /** Whether the user (or the network, for a completion) can cause an event
      in a state: a submission needs the drawn box to accept its text, which
      the box has already trimmed; the
      Cancel and Start New Session buttons must be drawn; a request may
      complete at any time. */
  predicate Enabled(s: Session, e: Event)
    ensures e.Submit? ==>
      (Enabled(s, e) <==>
         && e.message != [] && Trimmed(e.message)
         && !s.isLoading && s.view != Processing
         && (s.view == Results ==> s.response.Some?))
    ensures e.Cancel? ==> (Enabled(s, e) <==> s.isLoading && s.view != Results)
  {
    var box := BoxOf(Render(s));
    match e
    case Submit(m) => box.Some? && Accepts(m, box.value) && Trimmed(m)
    case Completed(_) => true
    case Cancel => box.Some? && CancelVisible(box.value)
    case Reset => ResetShown(Render(s))
  }

  /** Every event of the sequence is enabled in the state it arrives in. */
  predicate EnabledRun(s: Session, events: seq<Event>)
    decreases |events|
  {
    events == [] || (Enabled(s, events[0]) && EnabledRun(Next(s, events[0]), events[1..]))
  }

  /** The page's invariant: the results view always has a response to show,
      and a request is loading exactly while the processing view is shown. */
  predicate Consistent(s: Session)
  {
    && (s.view == Results ==> s.response.Some?)
    && (s.isLoading <==> s.view == Processing)
  }

  // ---------------------------------------------------------------------
  // Properties of the handlers

  /** A failure keeps the response stored by an earlier success: after one
      request succeeds and a second one fails, the empty view is shown and
      loading has stopped, yet the first response is still stored (and is
      not drawn). Both submissions are ones the drawn box can send. */
  lemma FailureKeepsEarlierResponse(a: string, b: string, r: ChatResponse, err: string)
    requires a != [] && Trimmed(a) && b != [] && Trimmed(b)
    ensures var s1 := Next(Initial, Submit(a));
            var s2 := Next(s1, Completed(Ok(r)));
            var s3 := Next(s2, Submit(b));
            var s4 := Next(s3, Completed(Err(err)));
            && Enabled(Initial, Submit(a))
            && Enabled(s2, Submit(b))
            && s3.isLoading
            && s4 == Session(Empty, false, Some(r))
            && Render(s4).EmptyScreen?
  {
  }

  /** Completions are not matched to the request they answer: with a second
      request pending after a cancel, the first request's failure returns the
      page to the empty view and stops loading, and the second request's
      later success still shows its results. Every user event on the way is
      enabled. */
  lemma StaleFailureThenSuccess(a: string, b: string, err: string, r: ChatResponse)
    requires a != [] && Trimmed(a) && b != [] && Trimmed(b)
    ensures var s1 := Next(Initial, Submit(a));
            var s2 := Next(s1, Cancel);
            var pending := Next(s2, Submit(b));
            var failed := Next(pending, Completed(Err(err)));
            && Enabled(Initial, Submit(a))
            && Enabled(s1, Cancel)
            && Enabled(s2, Submit(b))
            && pending == Session(Processing, true, None)
            && failed == Session(Empty, false, None)
            && Next(failed, Completed(Ok(r))) == Session(Results, false, Some(r))
  {
  }

  /** Cancel does not abandon the request: a success arriving after it still
      shows the results. */
  lemma LateSuccessAfterCancel(s: Session, r: ChatResponse)
    ensures Next(s, Cancel) == Session(Empty, false, s.response)
    ensures Next(Next(s, Cancel), Completed(Ok(r))) == Session(Results, false, Some(r))
  {
  }

  /** Reset shows the empty view and drops the response; the button for it
      is drawn only in the results view of a response with tickets. */
  lemma ResetOnlyFromResultsWithTickets(s: Session)
    ensures Next(s, Reset).view == Empty && Next(s, Reset).response == None
    ensures Enabled(s, Reset) <==>
      s.view == Results && s.response.Some? && |s.response.value.ticketsCreated| > 0
  {
  }

  /** The results view never lacks a response, whatever event arrives. */
  lemma ResultsHaveResponse(s: Session, e: Event)
    requires s.view == Results ==> s.response.Some?
    ensures Next(s, e).view == Results ==> Next(s, e).response.Some?
  {
  }

  /** The page starts consistent. */
  lemma InitialConsistent()
    ensures Consistent(Initial)
  {
  }

  /** Each enabled event keeps the page consistent. */
  lemma EnabledStepKeepsConsistent(s: Session, e: Event)
    requires Consistent(s) && Enabled(s, e)
    ensures Consistent(Next(s, e))
  {
  }

  /** Any sequence of enabled events from a consistent state (the initial
      state in particular) keeps the page consistent. */
  lemma {:induction false} EnabledRunKeepsConsistent(s: Session, events: seq<Event>)
    requires Consistent(s) && EnabledRun(s, events)
    ensures Consistent(Run(s, events))
    decreases |events|
  {
    if events != [] {
      EnabledStepKeepsConsistent(s, events[0]);
      EnabledRunKeepsConsistent(Next(s, events[0]), events[1..]);
    }
  }

  /** The screen follows the view: in a consistent state exactly the screen
      for its view is drawn, never `Nothing`. */
  lemma RenderFollowsView(s: Session)
    requires Consistent(s)
    ensures Render(s) != Nothing
    ensures Render(s).EmptyScreen? <==> s.view == Empty
    ensures Render(s).ProcessingScreen? <==> s.view == Processing
    ensures Render(s).ResultsScreen? <==> s.view == Results
  {
  }

  /** The results screen holds exactly one of the ticket grid and the
      no-tickets notice; the grid has one card per ticket, in order. */
  lemma ResultsSections(s: Session, r: ChatResponse)
    requires s.view == Results && s.response == Some(r)
    ensures Render(s).ResultsScreen?
    ensures Render(s).grid.Some? != Render(s).noTicketsNotice
    ensures Render(s).noTicketsNotice <==> r.ticketsCreated == []
    ensures Render(s).grid.Some? ==>
      |Render(s).grid.value| == |r.ticketsCreated|
      && forall i :: 0 <= i < |r.ticketsCreated| ==> Render(s).grid.value[i] == CardOf(r.ticketsCreated[i])
  {
  }

  /** While processing the box is drawn disabled and loading: no submission
      gets through, whatever is typed. */
  lemma ProcessingRejectsSubmit(s: Session, typed: string)
    requires s.view == Processing
    ensures BoxOf(Render(s)).Some?
    ensures Forwarded(typed, BoxOf(Render(s)).value) == None
    ensures !Enabled(s, Submit(typed))
  {
  }

  /** The Cancel button is drawn exactly while loading in the empty or the
      processing view: the results view gives its box no cancel handler. */
  lemma CancelShownWhileLoading(s: Session)
    requires BoxOf(Render(s)).Some?
    ensures CancelVisible(BoxOf(Render(s)).value) <==> s.isLoading && s.view != Results
    ensures Enabled(s, Cancel) <==> s.isLoading && s.view != Results
  {
  }

  /** After a cancel the box is neither loading nor disabled again: any text
      that is not all whitespace is submitted. */
  lemma CancelReenablesSubmit(s: Session, typed: string)
    requires !Blank(typed)
    ensures BoxOf(Render(Next(s, Cancel))).Some?
    ensures Forwarded(typed, BoxOf(Render(Next(s, Cancel))).value) == Some(Trim(typed))
    ensures Enabled(Next(s, Cancel), Submit(Trim(typed)))
  {
  }

  /** What a drawn box forwards is an enabled submission. */
  lemma ForwardedIsEnabled(s: Session, typed: string)
    requires BoxOf(Render(s)).Some?
    requires Forwarded(typed, BoxOf(Render(s)).value).Some?
    ensures Enabled(s, Submit(Forwarded(typed, BoxOf(Render(s)).value).value))
  {
  }

  /** Conversely, every enabled submission is what the drawn box forwards
      when that very text is typed. */
  lemma EnabledIsForwarded(s: Session, m: string)
    requires Enabled(s, Submit(m))
    ensures BoxOf(Render(s)).Some?
    ensures Forwarded(m, BoxOf(Render(s)).value) == Some(m)
  {
    TrimOfTrimmed(m);
  }

  /** More than one request can be outstanding: from the initial state, a
      submission, a cancel and a second submission are all enabled, and no
      completion has come in between. The two messages are any the box can
      forward: non-empty and already trimmed. */
  lemma TwoRequestsCanBeOutstanding(a: string, b: string)
    requires a != [] && Trimmed(a) && b != [] && Trimmed(b)
    ensures var s1 := Next(Initial, Submit(a));
            var s2 := Next(s1, Cancel);
            && Enabled(Initial, Submit(a))
            && Enabled(s1, Cancel)
            && Enabled(s2, Submit(b))
            && Next(s2, Submit(b)) == Session(Processing, true, None)
  {
  }

  /** In the initial state any message the box can forward may be submitted. */
  lemma InitialAcceptsMessage(m: string)
    requires m != [] && Trimmed(m)
    ensures Enabled(Initial, Submit(m))
  {
  }

  /** Whatever is typed (if it is not all whitespace), a submission from the
      initial state is enabled, and a successful completion after it ends in
      the results view holding that response. */
  lemma SubmitThenSuccess(typed: string, r: ChatResponse)
    requires !Blank(typed)
    ensures Enabled(Initial, Submit(Trim(typed)))
    ensures Next(Next(Initial, Submit(Trim(typed))), Completed(Ok(r))) == Session(Results, false, Some(r))
  {
    TrimEmptyIffBlank(typed);
    InitialAcceptsMessage(Trim(typed));
  }

  /** With the mock flag set to "true", whatever is typed, a submission
      from the initial state followed by its completion ends in the results
      view holding the canned response. */
  lemma MockSubmissionShowsFixture(typed: string, transport: Transport)
    requires !Blank(typed)
    ensures var m := Trim(typed);
            Next(Next(Initial, Submit(m)), Completed(SendMessage(ModeOf(Some("true")), RequestFor(m), transport)))
            == Session(Results, false, Some(MockResponse))
  {
  }

  /** The results screen of the canned response: three cards, one of them
      a P1 ticket in the Network category. */
  lemma MockResultsScreen()
    ensures Render(Session(Results, false, Some(MockResponse))).grid.Some?
    ensures var cards := Render(Session(Results, false, Some(MockResponse))).grid.value;
            |cards| == 3 && exists c :: c in cards && c.badge == "P1 Critical" && c.category == "Network"
  {
  }

  // ---------------------------------------------------------------------
  // The page component

  /** The page's state as the component holds it, with its handlers. */
  class Chat {
    var viewState: ViewState
    var isLoading: bool
    var response: Option<ChatResponse>

    function Snapshot(): Session
      reads this
    {
      Session(viewState, isLoading, response)
    }

    constructor ()
      ensures Snapshot() == Initial
    {
      viewState := Empty;
      isLoading := false;
      response := None;
    }

    /** The synchronous part of the submit handler: start loading, show the
        processing view, and build the request to send. */
    method HandleSubmit(message: string) returns (request: ChatRequest)
      modifies this
      ensures Snapshot() == Next(old(Snapshot()), Submit(message))
      ensures isLoading && viewState == Processing && response == old(response)
      ensures request == RequestFor(message)
    {
      isLoading := true;
      viewState := Processing;
      request := ChatRequest(message, CustomerService, DemoUserId);
    }

    /** The rest of the submit handler, run when the request settles: on
        success store the response and show the results, on failure show the
        empty view; in either case stop loading. */
    method Complete(outcome: Result<ChatResponse>)
      modifies this
      ensures Snapshot() == Next(old(Snapshot()), Completed(outcome))
      ensures !isLoading
      ensures outcome.Ok? ==> viewState == Results && response == Some(outcome.value)
      ensures outcome.Err? ==> viewState == Empty && response == old(response)
    {
      match outcome {
        case Ok(result) =>
          response := Some(result);
          viewState := Results;
        case Err(_) =>
          viewState := Empty;
      }
      isLoading := false;
    }

    /** The cancel handler: stop loading and show the empty view. */
    method HandleCancel()
      modifies this
      ensures Snapshot() == Next(old(Snapshot()), Cancel)
      ensures !isLoading && viewState == Empty && response == old(response)
    {
      isLoading := false;
      viewState := Empty;
    }

    /** The reset handler: show the empty view and drop the response. */
    method HandleReset()
      modifies this
      ensures Snapshot() == Next(old(Snapshot()), Reset)
      ensures viewState == Empty && response == None && isLoading == old(isLoading)
    {
      viewState := Empty;
      response := None;
    }

    /** A submission from the input box drawn in the current view: the box
        applies its guard with the props this view gives it, and what it
        forwards goes to the submit handler. */
    method SubmitFrom(input: MessageInput) returns (request: Option<ChatRequest>)
      modifies this, input
      ensures var box := BoxOf(Render(old(Snapshot())));
              if box.Some? && Accepts(old(input.message), box.value) then
                && request == Some(RequestFor(Trim(old(input.message))))
                && Enabled(old(Snapshot()), Submit(Trim(old(input.message))))
                && Snapshot() == Next(old(Snapshot()), Submit(Trim(old(input.message))))
                && input.message == []
              else
                && request == None
                && Snapshot() == old(Snapshot())
                && input.message == old(input.message)
    {
      var box := BoxOf(Render(Snapshot()));
      if box.None? {
        return None;
      }
      ghost var typed := input.message;
      var sent := input.Submit(box.value);
      if sent.Some? {
        ForwardedIsEnabled(old(Snapshot()), typed);
        var req := HandleSubmit(sent.value);
        request := Some(req);
      } else {
        request := None;
      }
    }
  }
}
