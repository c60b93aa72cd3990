# TelecomMaster chat session, modelled in Dafny

The TelecomMaster demo is a single-page chat front end. A user types a request
into a chat box. The page sends it to a backend, or in mock mode returns a
canned answer. It then draws the tickets the backend reports as cards. This
project models the logic of that front end:

- `chat_page.dfy` (module `ChatPage`): the page's session state. It holds the
  view (`empty`, `processing`, `results`), the loading flag and the stored
  response. `Next` gives the effect of each event: submit, completion (success
  or failure), cancel and reset. `Render` chooses what is drawn for a state.
  The class `Chat` holds the same three fields, and its handlers are proved to
  change them exactly as `Next` says. Lemmas prove the page's invariant over
  any sequence of enabled events. They also prove the view-selection rules and
  the hand-off between the page and its input box.
- `chat_box.dfy` (module `ChatBox`): the input buffer (class `MessageInput`),
  the submit guard and what it forwards, the Enter-key rule, the Send-button
  and Cancel-button predicates, and the character counter.
- `text.dfy` (module `Text`): `String.prototype.trim` over an explicit set of
  ECMAScript whitespace characters, with its characterisation. The guard uses
  it.
- `api.dfy` (module `Api`): the request, ticket and response records, with
  closed enumerations for role, priority and agent name. It also holds the
  canned mock response and the outcome of `sendMessage`: mock mode ignores the
  request, and in live mode every transport failure becomes one fixed message.
- `priority_badge.dfy` and `ticket_card.dfy`: the priority label table and how
  a ticket is drawn as a card.
- `wrappers.dfy`: `Option` and `Result`.

A request's completion is an event of its own that may arrive in any state.
The page does not check whether the user cancelled the request or submitted
another one in the meantime. Three consequences, each proved:

- A success that arrives after a cancel still shows the results
  (`LateSuccessAfterCancel`, src/pages/Chat.tsx:29-30, 49-52).
- A cancel re-enables the box, so a second request can be sent with no
  completion event in between. A cancel does not abort the call, so both
  requests are then in flight; the model has no count of requests in flight,
  and this follows from the enabled sequence (`TwoRequestsCanBeOutstanding`,
  src/pages/Chat.tsx:18-20, 49-52). The first request's failure then returns the page to the empty view
  while the second is still pending (`StaleFailureThenSuccess`,
  src/pages/Chat.tsx:36-46).
- A failure keeps the previously stored response; the view returns to empty
  and loading stops (`FailureKeepsEarlierResponse`, src/pages/Chat.tsx:29,
  36-46). A new
  submission also keeps it stored, but the processing view does not draw it.

## Model

| member | source | states |
|---|---|---|
| `Text.TrimStart` | src/components/chat/ChatBox.tsx:28 | the result is a suffix of the input, everything dropped is whitespace, and the result does not start with whitespace |
| `Text.TrimEnd` | src/components/chat/ChatBox.tsx:28 | the result is a prefix of the input, everything dropped is whitespace, and the result does not end with whitespace |
| `Text.Trim` | src/components/chat/ChatBox.tsx:28 | the trimmed text is no longer than the input and neither starts nor ends with whitespace |
| `Text.TrimIsInfix` | src/components/chat/ChatBox.tsx:29 | the trimmed text is one contiguous piece of the input with only whitespace around it |
| `Text.TrimEmptyIffBlank` | src/components/chat/ChatBox.tsx:28 | `message.trim()` is empty exactly when the message is all whitespace |
| `Text.TrimOfTrimmed` | src/components/chat/ChatBox.tsx:29 | a string without surrounding whitespace is left unchanged by trim |
| `Text.TrimIdempotent` | src/components/chat/ChatBox.tsx:29 | trimming twice equals trimming once |
| `Api.RoleName` | src/lib/api.ts:14 | no contract of its own: the wire spelling of each role; see `Api.RoleNamesExactlyFour` and `Api.ParseRole` |
| `Api.ParseRole` | src/lib/api.ts:14 | a string is read as a role only when it is that role's wire name |
| `Api.RoleNamesExactlyFour` | src/lib/api.ts:14 | every role's wire name is one of customer_service, supervisor, manager, admin, and it reads back as that role |
| `Api.PriorityCode` | src/lib/api.ts:21 | each priority travels as a two-character code starting with P, one of "P1", "P2", "P3", "P4" |
| `Api.PriorityCodeInjective` | src/lib/api.ts:21 | distinct priorities have distinct codes |
| `Api.MockFixture` | src/lib/api.ts:36-69 | the canned response holds TELECOM-001, -002 and -003 in that order, with pairwise distinct ids and priorities P1, P3, P2; it is complete and has a P1 ticket in category Network |
| `Api.AgentNameText` | src/lib/api.ts:28 | no contract of its own: the one spelling of the agent name, "TelecomMaster"; the drawn name is stated by `ChatPage.ResultsScreenOf` (src/pages/Chat.tsx:184) |
| `Api.ModeOf` | src/lib/api.ts:74 | mock mode is on exactly when the flag is the string "true" |
| `Api.SendMessage` | src/lib/api.ts:72-87 | mock mode answers with the canned response; live mode passes the backend's answer through and turns any transport failure into "Failed to process request. Please try again." |
| `Api.MockIgnoresRequest` | src/lib/api.ts:74-78 | in mock mode any two requests, whatever the network does, get the same answer |
| `Api.LiveFailuresCollapse` | src/lib/api.ts:80-86 | in live mode any two transport failures give the same single error |
| `PriorityBadge.Config` | src/components/ui/PriorityBadge.tsx:8-25 | no contract of its own: the label and tone table; see `PriorityBadge.Label`, `PriorityBadge.ConfigInjective` and `PriorityBadge.LabelsExactly` |
| `PriorityBadge.Label` | src/components/ui/PriorityBadge.tsx:27-28 | the badge text for a priority starts with that priority's code followed by a space |
| `PriorityBadge.PriorityOfLabel` | src/components/ui/PriorityBadge.tsx:8-25 | a label is read back as a priority only if it is that priority's label |
| `PriorityBadge.LabelRoundTrip` | src/components/ui/PriorityBadge.tsx:8-28 | the lookup is total and every label reads back as its own priority |
| `PriorityBadge.ConfigInjective` | src/components/ui/PriorityBadge.tsx:9-24 | distinct priorities get distinct labels and distinct colour tones |
| `PriorityBadge.LabelsExactly` | src/components/ui/PriorityBadge.tsx:9-24 | the labels are exactly "P1 Critical", "P2 High", "P3 Medium" and "P4 Low" |
| `TicketCard.IsTask` | src/components/tickets/TicketCard.tsx:20 | no contract of its own: a ticket is a task unless its category is exactly "Bug"; see `TicketCard.IconFor` |
| `TicketCard.IconFor` | src/components/tickets/TicketCard.tsx:20-43 | the check-square icon exactly for tasks (category not exactly "Bug") and the alert triangle exactly for the rest |
| `TicketCard.StatusStyles` | src/components/tickets/TicketCard.tsx:61-66 | the destructive style exactly for "Open", the primary style exactly for "In Progress", the green style exactly for "Resolved" |
| `TicketCard.AtMostOneStatusStyle` | src/components/tickets/TicketCard.tsx:61-66 | at most one status style applies, and none for any other status |
| `TicketCard.CardOf` | src/components/tickets/TicketCard.tsx:19-87 | no contract of its own: the fields a card draws; see `TicketCard.CardShowsWholeTicket` and `TicketCard.CardOfInjective` |
| `TicketCard.TicketOf` | src/components/tickets/TicketCard.tsx:45-80 | what is read back from a card keeps the card's id and source complaint |
| `TicketCard.CardShowsWholeTicket` | src/components/tickets/TicketCard.tsx:45-80 | the card shows id, title, status, team, category and complaint id verbatim and the ticket's own priority label, so the ticket reads back from its card |
| `TicketCard.CardOfInjective` | src/components/tickets/TicketCard.tsx:45-80 | different tickets never draw the same card |
| `ChatBox.Accepts` | src/components/chat/ChatBox.tsx:28 | no contract of its own: the submit guard; see `ChatBox.Forwarded`, `ChatBox.BlankNeverSubmitted` and `ChatBox.OpenBoxAccepts` |
| `ChatBox.Forwarded` | src/components/chat/ChatBox.tsx:28-29 | a submission forwards something exactly when the trimmed text is non-empty and the box is neither loading nor disabled, and what it forwards is the trimmed text |
| `ChatBox.ForwardedIsTrimmed` | src/components/chat/ChatBox.tsx:29 | what is forwarded is non-empty, has no surrounding whitespace, and would be forwarded unchanged again |
| `ChatBox.SendEnabled` | src/components/chat/ChatBox.tsx:106 | no contract of its own: the Send button's condition; see `ChatBox.SendEnabledIffAccepts` |
| `ChatBox.SendEnabledIffAccepts` | src/components/chat/ChatBox.tsx:106 | the Send button is enabled exactly when the submit guard of line 28 accepts |
| `ChatBox.BlankNeverSubmitted` | src/components/chat/ChatBox.tsx:28 | a whitespace-only buffer is never submitted |
| `ChatBox.OpenBoxAccepts` | src/components/chat/ChatBox.tsx:28-29 | a box neither loading nor disabled submits any text that is not all whitespace |
| `ChatBox.CancelVisible` | src/components/chat/ChatBox.tsx:81 | no contract of its own: Cancel is drawn while loading and only with a cancel handler; see `ChatPage.CancelShownWhileLoading` |
| `ChatBox.SubmitsOnKey` | src/components/chat/ChatBox.tsx:35 | no contract of its own: Enter without Shift; see `ChatBox.MessageInput.KeyDown` |
| `ChatBox.Counter` | src/components/chat/ChatBox.tsx:70 | the counter shows the buffer's length against 500 |
| `ChatBox.MessageInput.constructor` | src/components/chat/ChatBox.tsx:24 | the buffer starts empty |
| `ChatBox.MessageInput.Change` | src/components/chat/ChatBox.tsx:53 | the buffer stores the value as typed, with no truncation at 500 |
| `ChatBox.MessageInput.Submit` | src/components/chat/ChatBox.tsx:26-32 | the trimmed text is forwarded and the buffer cleared exactly when the guard accepts; otherwise nothing is forwarded and the buffer is unchanged |
| `ChatBox.MessageInput.KeyDown` | src/components/chat/ChatBox.tsx:34-39 | Enter without Shift takes the submit path; any other key forwards nothing and keeps the buffer |
| `ChatPage.RequestFor` | src/pages/Chat.tsx:23-27 | the request carries the message unchanged, role customer_service and user id demo-user-001 |
| `ChatPage.Cards` | src/pages/Chat.tsx:217-226 | one card per ticket, in list order |
| `ChatPage.Next` | src/pages/Chat.tsx:18-57 | only a submission starts loading, and a completion or a cancel stops it; the results view is entered exactly on a success; the stored response changes only on a success or a reset |
| `ChatPage.ResultsScreenOf` | src/pages/Chat.tsx:149-247 | the results screen: its box is enabled, has no cancel handler and the refine placeholder; it names the agent "TelecomMaster" and shows the agent's answer and completion flag, and exactly one of the ticket grid (when there are tickets) and the no-tickets notice |
| `ChatPage.Render` | src/pages/Chat.tsx:65-247 | each view draws its own screen, and nothing is drawn in the results view without a response; every box shows the page's loading flag, only the processing box is disabled, only the results box has no cancel handler |
| `ChatPage.ResetShown` | src/pages/Chat.tsx:198-213 | no contract of its own: the Start New Session button sits in the ticket grid's header; see `ChatPage.ResetOnlyFromResultsWithTickets` |
| `ChatPage.Enabled` | src/pages/Chat.tsx:87-166 | a submission is possible exactly for non-empty trimmed text while not loading, outside the processing view, and (in the results view) with a response drawn; Cancel exactly while loading outside the results view; the reset condition is in `ChatPage.ResetOnlyFromResultsWithTickets` |
| `ChatPage.FailureKeepsEarlierResponse` | src/pages/Chat.tsx:18-46 | along enabled submissions of two non-empty trimmed texts, after a success and then a failed second request, the empty view is drawn, loading has stopped and the first response is still stored |
| `ChatPage.StaleFailureThenSuccess` | src/pages/Chat.tsx:18-52 | along enabled submit, cancel and submit events, with a second request pending after a cancel, the first request's failure shows the empty view and stops loading, and the second's later success shows its results |
| `ChatPage.LateSuccessAfterCancel` | src/pages/Chat.tsx:29-52 | cancel clears loading, shows the empty view and keeps the response, and a success arriving afterwards still shows the results |
| `ChatPage.ResetOnlyFromResultsWithTickets` | src/pages/Chat.tsx:198-213 | reset shows the empty view and clears the response, and its button is drawn exactly in the results view of a response with tickets |
| `ChatPage.ResultsHaveResponse` | src/pages/Chat.tsx:149 | no event can reach the results view without a stored response |
| `ChatPage.InitialConsistent` | src/pages/Chat.tsx:13-15 | the initial state (empty view, not loading, no response) satisfies the page invariant |
| `ChatPage.EnabledStepKeepsConsistent` | src/pages/Chat.tsx:18-57 | each enabled event keeps the invariant: results only with a response, and loading exactly while processing |
| `ChatPage.EnabledRunKeepsConsistent` | src/pages/Chat.tsx:18-57 | any sequence of enabled events from a consistent state keeps it consistent |
| `ChatPage.RenderFollowsView` | src/pages/Chat.tsx:65-149 | in a consistent state exactly the screen of the current view is drawn |
| `ChatPage.ResultsSections` | src/pages/Chat.tsx:198-247 | the results screen has exactly one of the ticket grid and the no-tickets notice; the notice exactly for an empty list; the grid has one card per ticket in order |
| `ChatPage.ProcessingRejectsSubmit` | src/pages/Chat.tsx:109-114 | while processing the box is drawn disabled, so nothing typed is submitted |
| `ChatPage.CancelShownWhileLoading` | src/pages/Chat.tsx:87-166 | the Cancel button is drawn exactly while loading outside the results view, whose box gets no cancel handler |
| `ChatPage.CancelReenablesSubmit` | src/pages/Chat.tsx:49-52 | after a cancel the box accepts any text that is not all whitespace |
| `ChatPage.ForwardedIsEnabled` | src/pages/Chat.tsx:87-166 | whatever the drawn box forwards is an enabled submission |
| `ChatPage.InitialAcceptsMessage` | src/pages/Chat.tsx:13-15 | in the initial state any non-empty trimmed message may be submitted |
| `ChatPage.EnabledIsForwarded` | src/pages/Chat.tsx:87-166 | every enabled submission is what the drawn box forwards when that very text is typed, the converse of `ChatPage.ForwardedIsEnabled` |
| `ChatPage.TwoRequestsCanBeOutstanding` | src/pages/Chat.tsx:18-52 | submit, cancel, submit is an enabled sequence from the initial state with no completion in between, ending in the processing view with loading on |
| `ChatPage.SubmitThenSuccess` | src/pages/Chat.tsx:18-31 | a non-blank submission from the initial state is enabled, and its success shows the results holding the response |
| `ChatPage.MockSubmissionShowsFixture` | src/pages/Chat.tsx:23-30 | with the mock flag set to "true" (src/lib/api.ts:74) a submission and its completion end in the results view holding the canned response |
| `ChatPage.MockResultsScreen` | src/pages/Chat.tsx:198-226 | the canned response draws three cards, one of them a P1 Critical ticket in category Network |
| `ChatPage.Chat.constructor` | src/pages/Chat.tsx:13-15 | the page starts in the empty view, not loading, with no response |
| `ChatPage.Chat.HandleSubmit` | src/pages/Chat.tsx:18-27 | sets loading and the processing view, keeps the response, and builds the request |
| `ChatPage.Chat.Complete` | src/pages/Chat.tsx:29-46 | on success stores the response and shows the results; on failure shows the empty view; always clears loading |
| `ChatPage.Chat.HandleCancel` | src/pages/Chat.tsx:49-52 | clears loading and shows the empty view, keeping the response |
| `ChatPage.Chat.HandleReset` | src/pages/Chat.tsx:54-57 | shows the empty view and clears the response, leaving loading as it was |
| `ChatPage.Chat.SubmitFrom` | src/pages/Chat.tsx:87-166 | the box drawn in the current view applies its guard; an accepted text starts an enabled submission of the trimmed text and clears the buffer; a rejected one changes nothing |

## Left out

- The HTTP client is not modelled: the base URL and environment reads, the 30-second timeout, the headers and the POST itself. Their outcome is the `Transport` parameter of `SendMessage`.
- The 2-second delay before the mock answer is not modelled. It is timing only.
- Asynchronous interleaving is reduced to discrete events. A completion is one atomic `Completed` event that may arrive in any state.
- Toast notifications and `console.error` are not modelled. This includes the ticket-count text and the failure description shown to the user.
- Animation, CSS classes, layout, and icon glyphs and their colours are not modelled. Which icon, view, section and buttons are drawn, and each box's props, are kept. The Send button's label (Processing while loading, Send otherwise) is not modelled. The badge colour classes become the `Tone` enumeration.
- Each view draws its own chat box instance, so changing view starts a fresh, empty buffer. The model keeps one buffer, emptied only by an accepted submission.
- A disabled text area refuses typing in the browser. `MessageInput.Change` does not model this.
- The TypeScript types are not checked at run time. The model assumes live responses fit them: the agent-name literal and the priority enumeration. Unique ticket ids are proved for the canned response only; nothing enforces them for live responses.
- `ChatBox.Counter`: counts characters, whereas `message.length` counts UTF-16 code units, which differ for characters outside the Basic Multilingual Plane.
- The landing page, the header and the feature cards are not modelled. They are static markup.
