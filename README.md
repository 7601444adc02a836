# EnerGpt research pipeline and chat session, in Dafny

EnerGpt answers energy-industry questions. The backend turns a query into a report in
one fixed pass: a research stage (web search plus a language model), an analysis stage,
a writing stage, and a suggestion stage. The suggestion stage asks the model for three
follow-up questions and cleans its raw text. The Streamlit front end keeps a small
session state. Guests get four prompts before they are asked to log in. "New Chat" and
logout reset that count. Each prompt clears the old suggestions, is sent to the backend,
and on success adds the report and the new suggestions.

The model has three modules:

- `Text` (text.dfy): Python's `str.strip()`, `str.split(sep)` and `sep.join(...)` on
  strings of code points. Whitespace is exactly the set of characters for which
  Python's `str.isspace()` holds.
- `ResearchChain` (research_chain.dfy): `generate_suggestions` and `run_full_research`.
  The four stage bodies are function values that return text or raise. An exception
  propagates, so a raising stage ends the run. Each run records which stage got which
  input, in order.
- `ChatSession` (chat_session.dfy): the session fields `auth_token`, `user`,
  `messages`, `chat_count`, `suggestions`, `suggestion_clicked` and `current_page`.
  A pure function specifies each transition. The class `Session` performs the
  transitions in place, and each of its methods is proved equal to its function.
  Lemmas over event sequences state the guest quota.

Main results:

- The suggestions are exactly the first three non-blank lines of the model's text,
  stripped, in their original order, or all of them when there are fewer. So there are
  at most three, and each is non-empty, stripped and free of line breaks. The
  `result.strip()` applied before splitting is proved to change nothing.
- `run_full_research` calls research, analysis, writing and suggestions once each, in
  that order. Each stage gets only the previous stage's text. The report is the
  writing stage's output, and the suggestions are parsed from that same report.
- A guest is stopped as soon as `chat_count` reaches 4, and the count never goes above 4.
  A guest who neither logs in nor resets sends at most `4 - chat_count` more prompts.
  "New Chat" is offered while the limit is reached, and it gives a fresh quota.
- A clicked suggestion becomes the next prompt, even over typed input, and is then
  removed from the state.

`run_full_research` is a straight line, and the live front end posts only
`{"query": prompt}`.

## Model

| member | source | states |
|---|---|---|
| Text.Strip | backend/research_chain.py:129 | `strip()` gives a string with no whitespace at either end and no longer than its input |
| Text.StripDecomposes | backend/research_chain.py:129 | `strip()` removes only a whitespace prefix and a whitespace suffix: `s == pre + s.strip() + post` |
| Text.StripExact | backend/research_chain.py:129 | surrounding a stripped string with any whitespace and stripping gives that string back |
| Text.StripSkip | backend/research_chain.py:129 | whitespace added at either end does not change `strip()` |
| Text.Split | backend/research_chain.py:129 | `split('\n')` always yields at least one piece |
| Text.JoinSplit | backend/research_chain.py:129 | no piece of `split(sep)` contains `sep`, and joining the pieces with `sep` restores the string |
| Text.SplitJoin | backend/research_chain.py:129 | splitting a join of separator-free pieces gives the pieces back (split and join are inverse) |
| ResearchChain.CleanLines | backend/research_chain.py:129 | the comprehension keeps only non-empty, stripped lines and never more lines than it was given |
| ResearchChain.KeptIndices | backend/research_chain.py:129 | the positions of the kept lines are in range and strictly increasing, one per kept line |
| ResearchChain.CleanLineAt | backend/research_chain.py:129 | the k-th kept line is the stripped input line at the k-th kept position, so order is preserved |
| ResearchChain.KeptIndicesComplete | backend/research_chain.py:129 | every line that is not blank after stripping is kept |
| ResearchChain.OuterStripIsRedundant | backend/research_chain.py:129 | stripping the whole text before splitting changes none of the resulting questions |
| ResearchChain.ParseSuggestions | backend/research_chain.py:127-130 | at most three questions, each non-empty, stripped and without a line break |
| ResearchChain.SuggestionsAreFirstNonBlankLines | backend/research_chain.py:129-130 | the questions are the first three non-blank stripped lines of the text, exactly three when there are that many and all of them otherwise |
| ResearchChain.GenerateSuggestions | backend/research_chain.py:126-130 | suggestions are produced exactly when the model call returns, and there are at most three |
| ResearchChain.RunFullResearch | backend/research_chain.py:135-144 | the stages are invoked in the order research, analysis, writing, suggestions, at most once each, the first on the query |
| ResearchChain.RunPassesOutputs | backend/research_chain.py:135-139 | each stage after the first receives exactly the text the stage before it returned |
| ResearchChain.RunOutcome | backend/research_chain.py:135-144 | an aborted run ends in the stage that raised, with its exception; a completed run invoked all four stages and returns the report and the questions parsed from that report's suggestion text |
| ResearchChain.RunIsComposition | backend/research_chain.py:135-144 | the run completes exactly when no stage raises, and then returns `{report: writing(analysis(research(query))), suggestions: generate_suggestions(report)}` |
| ChatSession.Initial | frontend/app.py:57-71 | the first state is a guest on the chat page with no messages and a zero count |
| ChatSession.AfterNavigate | frontend/app.py:75-76 | `navigate_to` changes only `current_page` |
| ChatSession.AfterLogout | frontend/app.py:79-84 | logout clears the token and user, empties messages, zeroes the count, goes to the login page and keeps the suggestions |
| ChatSession.AfterNewChat | frontend/app.py:659-663 | "New Chat" empties messages and suggestions, zeroes the count and changes nothing else |
| ChatSession.AfterLogIn | frontend/app.py:389-392 | a successful login stores the token and user and goes to the chat page; nothing else changes |
| ChatSession.AfterOpenHistory | frontend/app.py:682-687 | opening a history entry makes the conversation that query and response and clears the suggestions; nothing else changes |
| ChatSession.AfterClickSuggestion | frontend/app.py:741-746 | clicking a suggestion makes it the pending `suggestion_clicked` and changes nothing else |
| ChatSession.PendingPrompt | frontend/app.py:749-751 | a pending non-empty suggestion becomes the prompt and is removed; otherwise the typed input is the prompt and the state is unchanged |
| ChatSession.ReportMessage | frontend/app.py:784-791 | the assistant message shows the topic heading, the query, and the report text verbatim |
| ChatSession.AfterPrompt | frontend/app.py:754-804 | a guest's count goes up by exactly one and a logged-in user's does not change; one user message is appended; an assistant message showing the report follows exactly on a 200 reply with `result` and `query`, and any other reply adds only the user message; the suggestions become the reply's on a 200 reply with `result`, and are empty otherwise |
| ChatSession.LimitReached | frontend/app.py:712-715 | `limit_reached`: no token and a count of at least 4 |
| ChatSession.LimitStopsPrompts | frontend/app.py:712-724 | a submitted prompt is refused exactly when `limit_reached` holds; otherwise it is sent as a user message |
| ChatSession.Enabled | frontend/app.py:631-746 | which controls the page on show offers: history and sidebar logout only with a token, suggestion buttons only below the limit, New Chat and the chat input on the chat page |
| ChatSession.GuestControls | frontend/app.py:631-746 | a guest sees no history and no sidebar logout, no suggestion buttons at the limit, and always New Chat and the chat input on the chat page |
| ChatSession.AfterChatPage | frontend/app.py:712-804 | when the limit is reached, nothing changes and no prompt is processed |
| ChatSession.ChatPageCount | frontend/app.py:712-761 | one page run raises the count by one exactly when a guest below the limit sends a prompt |
| ChatSession.StepKeepsQuota | frontend/app.py:712-761 | no user action takes the count above 4 |
| ChatSession.ReplayKeepsQuota | frontend/app.py:712-761 | from a state within the quota, every admissible sequence of actions stays within it |
| ChatSession.GuestStepCountsPrompts | frontend/app.py:757-764 | for a guest, every action other than a reset raises the count exactly by the prompts it sends |
| ChatSession.GuestPromptBudget | frontend/app.py:712-764 | a guest who does not log in or reset sends at most `4 - chat_count` more prompts |
| ChatSession.NewChatReopensQuota | frontend/app.py:659-663 | "New Chat" lifts a guest's reached limit |
| ChatSession.ClickedSuggestionIsSent | frontend/app.py:745-764 | after a click, the next page run sends the clicked suggestion as the user's message and clears it from the state |
| ChatSession.HistoryLabel | frontend/app.py:678 | the label is the query when it has at most 25 characters, and otherwise its first 25 characters followed by ".." (27 in all) |
| ChatSession.HistoryLabelKeepsQuery | frontend/app.py:678 | the label equals the query exactly when the query has at most 25 characters or is 27 characters ending in ".." |
| ChatSession.Session.constructor | frontend/app.py:57-71 | the fields start as the initial state |
| ChatSession.Session.NavigateTo | frontend/app.py:75-76 | in place, as `AfterNavigate`, keeping the quota invariant |
| ChatSession.Session.Logout | frontend/app.py:79-84 | in place, as `AfterLogout`, keeping the quota invariant |
| ChatSession.Session.NewChat | frontend/app.py:659-663 | in place, as `AfterNewChat`, keeping the quota invariant |
| ChatSession.Session.LogIn | frontend/app.py:389-392 | in place, as `AfterLogIn`, keeping the quota invariant |
| ChatSession.Session.OpenHistory | frontend/app.py:668-687 | in place, as `AfterOpenHistory`; offered only with a token |
| ChatSession.Session.ClickSuggestion | frontend/app.py:736-746 | in place, as `AfterClickSuggestion`; offered only below the limit |
| ChatSession.Session.TakePrompt | frontend/app.py:749-751 | in place, as `PendingPrompt`, returning the prompt |
| ChatSession.Session.ProcessPrompt | frontend/app.py:754-804 | in place, as `AfterPrompt`, keeping the count at most 4 |
| ChatSession.Session.ChatPage | frontend/app.py:712-804 | one run of the live `chat_page`, in place, as `AfterChatPage` |

## Left out

- The language model, the web search and the prompt templates (backend/research_chain.py:16-124) are foreign calls. Each stage is an opaque function from its one input to returned text or a raised exception.
- `research_step` is one opaque stage. The search call inside it is not separated from the model call.
- Rendering, CSS and HTML injection, the Spline background, spinners and error banners in frontend/app.py are UI only. `st.rerun()` and `st.stop()` are modelled as the end of a run.
- The HTTP calls (`requests.post`, `get_user_history`, `login_user`) are I/O. Their results are parameters: the reply to POST /research, the history entry clicked, and the token and username of a successful login.
- The first `chat_page` (frontend/app.py:551-615) is dead code, because the definition at line 698 replaces it. It is not modelled.
- `session_id` (frontend/app.py:66-67) is set but never read by the live chat page.
- The signup, forgot-password and profile pages are not modelled beyond their navigation and the profile page's logout button. The login form's field checks are not modelled either; only a successful login is.
- ChatSession.Enabled: offers logout on the profile page whatever the session holds. The page's own condition for showing the button is not modelled.
- ChatSession.AfterPrompt: a reply whose `suggestions` key holds JSON `null` is not modelled; a missing key gives `[]`, as in the code.
- An absent `suggestions` key is modelled as `[]`. The code sets it to `[]` before first reading it, except through logout, which never touches it.
- backend/main.py (routes, JWT handling, database writes, file output), backend/database.py, frontend/auth.py, view_db.py, run_tests.py and tests/test_auth.py are plumbing around the core. They are not part of this model.
