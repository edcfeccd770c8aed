# LinguaTinder UI state machines in Dafny

LinguaTinder is a front-end mockup of a "swipe to match, then chat" app for
language learners. It has no back end. Its only logic is the local state of
four React components, and this project models that state and proves what the
components promise about it:

- **Swipe gesture interpreter** (`ProfileCard`, module `ProfileCard`). It
  tracks two state cells, `isDragging` and `dragOffset`. Mouse-down starts a
  drag and mouse-move records the pointer offset while dragging. Mouse-up
  emits a left or right swipe when the horizontal offset is strictly beyond
  100, and always resets to idle at the origin. Pure rules cover the
  accept/reject badges, the card tilt and the fluency-dot colour.
- **Discovery sequencer** (`App`, module `Discovery`). A right swipe appends
  the current profile to the ordered `matchedProfiles`. The profile index
  advances only while it is below the last index. `Discovery` also covers tab
  switching, the chat selection, the "Start Over" button and the chat badge.
- **Chat send logic** (`ChatInterface`, module `Chat`). A send is ignored
  when the text box trims to empty or no chat is open. Otherwise it appends
  the user's message, clears the box, turns the typing indicator on and
  schedules a canned reply. The reply, delivered as its own step, appends one
  AI message and turns the indicator off. It carries a correction exactly
  when the sent text contains `"good"`.
- **Settings reducer** (`SettingsPanel`, module `Settings`). A toggle negates
  one boolean field and a select replaces one field. No other field changes.

Each component has two parts. The first is a state datatype with pure
step functions; their contracts and the lemmas about runs of events hold the
properties. The second is a class whose handler methods are proved to
produce exactly the step function's result. Its fields are the component's
state cells, with one addition: `Chat.ChatInterface.pending` holds the
texts captured by the reply `setTimeout` closures that have not fired yet
(src/components/ChatInterface.tsx:81-93). React keeps those inside the
scheduled closures, not in a state cell. The modules `Wrappers` (an `Option` type) and `Profiles`
(the `AIProfile` record and the three mock profiles) are shared.

Behaviour of the code worth knowing:

- The release threshold is strict (`|x| > 100`), so `x = ±100` cancels.
- Badge opacity `|x| / 200` is not clamped to 1.
- Mouse-down does not reset the offset. The proved idle-at-origin invariant
  (`AtRest`) means a drag still starts from `(0, 0)`.
- Accepting, rejecting and accepting again over the three profiles does not
  exhaust the list. The index stops at the last profile, which stays on the
  card (`AcceptRejectAcceptScenario`). As a result the "No more profiles"
  view and its Start Over button can never be reached
  (`ExhaustedViewUnreachable`).

## Model

| member | source | states |
|---|---|---|
| `ProfileCard.Classify` | src/components/ProfileCard.tsx:46-48 | a release is a right swipe iff x > 100, a left swipe iff x < -100, and nothing iff -100 <= x <= 100 |
| `ProfileCard.MouseDown` | src/components/ProfileCard.tsx:28-31 | mouse-down always enters the dragging state, keeps the offset and preserves the idle-at-origin invariant |
| `ProfileCard.MouseMove` | src/components/ProfileCard.tsx:33-41 | while idle, or with no card element, the state is unchanged; while dragging the offset becomes exactly (x, y) |
| `ProfileCard.MouseUp` | src/components/ProfileCard.tsx:43-53 | while idle, mouse-up is a no-op that emits nothing; otherwise it emits a swipe iff abs(x) > 100, right iff x > 100, and resets to idle at (0, 0) |
| `ProfileCard.MouseUpIgnoresY` | src/components/ProfileCard.tsx:46-48 | the vertical offset never changes what a release emits |
| `ProfileCard.BoundaryIsCancel` | src/components/ProfileCard.tsx:46-47 | a release at exactly x = 100 or x = -100 emits nothing (the threshold is exclusive) |
| `ProfileCard.RunKeepsAtRest` | src/components/ProfileCard.tsx:24-53 | after any sequence of mouse events, an idle card sits at the origin |
| `ProfileCard.RunSwipesAtMostUps` | src/components/ProfileCard.tsx:43-53 | a run emits at most one swipe per mouse-up, and no other event emits one |
| `ProfileCard.RunEndingInUpIsIdle` | src/components/ProfileCard.tsx:51-52 | whatever the outcome, a run ending in a mouse-up leaves the card idle at (0, 0), ready for a fresh gesture |
| `ProfileCard.Opacity` | src/components/ProfileCard.tsx:68 | opacity is non-negative, zero only at x = 0, and exceeds 1 beyond 200 (no clamping) |
| `ProfileCard.OpacityIncreases` | src/components/ProfileCard.tsx:68 | opacity grows strictly with abs(x) |
| `ProfileCard.IndicatorsFor` | src/components/ProfileCard.tsx:82-92 | badges render iff abs(x) > 50; the reject badge is visible iff x < 0 and the accept badge iff x > 0, and their opacities sum to abs(x)/200 |
| `ProfileCard.Rotation` | src/components/ProfileCard.tsx:67 | the tilt has the sign of x, and is zero iff x is zero |
| `ProfileCard.FluencyColor` | src/components/ProfileCard.tsx:70-77 | Advanced maps to green, Intermediate to yellow, Beginner to red, and every other level to gray, each in both directions |
| `ProfileCard.Card.constructor` | src/components/ProfileCard.tsx:24-25 | a new card is idle at (0, 0) |
| `ProfileCard.Card.HandleMouseDown` | src/components/ProfileCard.tsx:28-31 | the handler's new state is `MouseDown` of the old one; the invariant is kept |
| `ProfileCard.Card.HandleMouseMove` | src/components/ProfileCard.tsx:33-41 | the handler's new state is `MouseMove` of the old one; the invariant is kept |
| `ProfileCard.Card.HandleMouseUp` | src/components/ProfileCard.tsx:43-53 | the handler returns the swipe `MouseUp` emits and always leaves the card idle at (0, 0) |
| `Profiles.MockProfilesHaveDistinctIds` | src/App.tsx:23-60 | the mock profile list holds exactly three profiles, with pairwise distinct ids |
| `Discovery.CurrentProfile` | src/App.tsx:68 | the profile on the card is one of the mock profiles, and it is the one the discover tab renders |
| `Discovery.Swipe` | src/App.tsx:70-78 | a right swipe appends exactly the current profile to the matches, a left swipe leaves them unchanged; the index goes up by one iff it was below the last index, otherwise stays; the index stays in range; tab and chat are untouched |
| `Discovery.StartOver` | src/App.tsx:93-94 | Start Over sets the index to 0 and leaves the matches, tab and chat alone |
| `Discovery.SelectTab` | src/App.tsx:147-190 | a navigation button sets the active tab and changes neither the index, the matches nor the selected chat |
| `Discovery.SelectChat` | src/App.tsx:106-110 | opening or closing a chat sets only `selectedChat` |
| `Discovery.DiscoverContent` | src/App.tsx:82-100 | the discover tab shows the "No more profiles" view iff the index is out of range, and otherwise the profile at the index |
| `Discovery.ChatBadge` | src/App.tsx:165-169 | the chat badge is shown iff there is at least one match, and then shows the number of matches |
| `Discovery.Apply` | src/App.tsx:64-110 | every user action keeps the index within the profile list |
| `Discovery.Run` | src/App.tsx:64-94 | from an in-range index, any sequence of swipes, Start Over, tab and chat actions keeps the index in range |
| `Discovery.ExhaustedViewUnreachable` | src/App.tsx:85-99 | from the initial state the discover tab always shows a card: the "No more profiles" branch is unreachable |
| `Discovery.RunMatchesAppendOnly` | src/App.tsx:70-73 | the match list only grows at the end, by exactly one per right swipe, duplicates included |
| `Discovery.RunMatchesAreProfiles` | src/App.tsx:68-73 | every match is one of the mock profiles |
| `Discovery.RepeatedRightSwipeOnLastDuplicates` | src/App.tsx:72-77 | two right swipes on the last profile append it twice and leave the index where it is |
| `Discovery.AcceptRejectAcceptScenario` | src/App.tsx:64-78 | accept, reject, accept from the start gives the matches [first, third] and leaves the third profile on the card |
| `Discovery.App.constructor` | src/App.tsx:63-66 | the app starts on the discover tab, at index 0, with no matches and no open chat |
| `Discovery.App.HandleSwipe` | src/App.tsx:70-78 | the handler's new state is `Swipe` of the old one |
| `Discovery.App.HandleStartOver` | src/App.tsx:93-94 | the handler's new state is `StartOver` of the old one |
| `Discovery.App.SetActiveTab` | src/App.tsx:147-190 | the handler's new state is `SelectTab` of the old one |
| `Discovery.App.SetSelectedChat` | src/App.tsx:106-110 | the handler's new state is `SelectChat` of the old one |
| `Discovery.App.ClickReject` | src/components/ProfileCard.tsx:175-176 | the X button applies a left swipe to the sequencer, with no threshold check and whatever the card's drag state |
| `Discovery.App.ClickLike` | src/components/ProfileCard.tsx:181-182 | the heart button applies a right swipe to the sequencer, with no threshold check and whatever the card's drag state |
| `Discovery.App.ReleaseCard` | src/App.tsx:86-89 | a mouse-up on the card resets the card, and the swipe it emits, if any, is applied through `handleSwipe`; with no swipe the app state is unchanged |
| `Chat.Trim` | src/components/ChatInterface.tsx:68 | the trimmed text is no longer than the text, and is empty or neither starts nor ends with white space |
| `Chat.Blank` | src/components/ChatInterface.tsx:244 | the empty text is blank, and a text that starts or ends with a non-space character is not |
| `Chat.Contains` | src/components/ChatInterface.tsx:88 | the empty word occurs in every text, a text starting with the word contains it, and a text never contains a word longer than itself |
| `Chat.TrimStartRemovesLeadingWhiteSpace` | src/components/ChatInterface.tsx:68 | trimming the start removes exactly the leading white space, leaving a suffix that starts with a non-space |
| `Chat.TrimEndRemovesTrailingWhiteSpace` | src/components/ChatInterface.tsx:68 | trimming the end removes exactly the trailing white space, leaving a prefix that ends with a non-space |
| `Chat.AllWhiteSpaceTrimsAway` | src/components/ChatInterface.tsx:68 | a text made only of white space trims to nothing |
| `Chat.BlankIffAllWhiteSpace` | src/components/ChatInterface.tsx:68 | a text trims to empty iff every character is white space |
| `Chat.ContainsIffOccurs` | src/components/ChatInterface.tsx:88 | `includes` holds iff the word occurs at some position |
| `Chat.SetInput` | src/components/ChatInterface.tsx:231 | typing sets the text box and nothing else |
| `Chat.SendDisabled` | src/components/ChatInterface.tsx:244 | the send button is disabled iff the text box holds only white space |
| `Chat.Send` | src/components/ChatInterface.tsx:67-79 | with a blank text or no open chat, sending changes nothing; otherwise it appends one user message holding the untrimmed text, clears the box, sets the typing flag and schedules a reply for that text |
| `Chat.GenerateAIResponse` | src/components/ChatInterface.tsx:50-65 | the reply text is one of the ten canned strings |
| `Chat.AiReply` | src/components/ChatInterface.tsx:82-89 | the AI message is from the AI, has a canned text and the example translation, and has the correction tip iff the captured text contains "good" |
| `Chat.DeliverReply` | src/components/ChatInterface.tsx:81-93 | the oldest pending reply is appended as one AI message, the typing flag is cleared, the text box is untouched |
| `Chat.KeyPress` | src/components/ChatInterface.tsx:96-101 | Enter without Shift sends; any other key, or Enter with Shift, changes nothing |
| `Chat.Apply` | src/components/ChatInterface.tsx:67-101 | every chat event keeps the earlier transcript as a prefix and adds at most one message |
| `Chat.RunIsAppendOnly` | src/components/ChatInterface.tsx:77-91 | no run of chat events changes or removes an earlier message |
| `Chat.InitialConsistent` | src/components/ChatInterface.tsx:37-39 | the empty chat satisfies the chat invariant |
| `Chat.SendKeepsConsistent` | src/components/ChatInterface.tsx:67-79 | sending keeps the chat invariant |
| `Chat.DeliverKeepsConsistent` | src/components/ChatInterface.tsx:81-93 | a delivered reply keeps the chat invariant |
| `Chat.ApplyKeepsConsistent` | src/components/ChatInterface.tsx:67-101 | every chat event keeps the chat invariant |
| `Chat.RunKeepsConsistent` | src/components/ChatInterface.tsx:67-101 | after any run, the k-th AI message answers the k-th user message and has a correction iff that message contains "good"; unanswered user messages are exactly the pending replies; no user message is blank; the typing flag is on only while a reply is pending |
| `Chat.SendThenReply` | src/components/ChatInterface.tsx:67-93 | from a quiet chat, a send and its reply add exactly the user message and one AI message, whose correction depends only on the sent text containing "good" |
| `Chat.ChatInterface.constructor` | src/components/ChatInterface.tsx:37-39 | the chat starts with no messages, an empty box and no typing indicator |
| `Chat.ChatInterface.SetInputText` | src/components/ChatInterface.tsx:231 | the handler's new state is `SetInput` of the old one |
| `Chat.ChatInterface.HandleSendMessage` | src/components/ChatInterface.tsx:67-79 | the handler's new state is `Send` of the old one; the chat invariant is kept |
| `Chat.ChatInterface.HandleKeyPress` | src/components/ChatInterface.tsx:96-101 | the handler's new state is `KeyPress` of the old one |
| `Chat.ChatInterface.ReplyTimerFires` | src/components/ChatInterface.tsx:81-93 | the timer callback's new state is `DeliverReply` of the old one; the chat invariant is kept |
| `Settings.Get` | src/components/SettingsPanel.tsx:5-14 | the five flags read as booleans, language and difficulty as strings, the daily goal as a number |
| `Settings.InitialSettingsValues` | src/components/SettingsPanel.tsx:5-14 | the panel starts with notifications, auto-translate and sound effects on, dark mode and privacy mode off, English, 15 minutes and Intermediate |
| `Settings.Toggle` | src/components/SettingsPanel.tsx:16-21 | the toggled field is negated and every other field is unchanged |
| `Settings.Select` | src/components/SettingsPanel.tsx:23-28 | the selected field takes the given value and every other field is unchanged |
| `Settings.ToggleTwiceRestores` | src/components/SettingsPanel.tsx:16-21 | toggling the same field twice restores the original record |
| `Settings.SelectIdempotent` | src/components/SettingsPanel.tsx:23-28 | selecting the same value twice equals selecting it once |
| `Settings.LanguageOptionsDistinct` | src/components/SettingsPanel.tsx:53-58 | the language select offers six distinct languages |
| `Settings.DailyGoalOptionsIncreasing` | src/components/SettingsPanel.tsx:75-79 | the daily-goal select offers five positive goals in strictly increasing order |
| `Settings.DifficultyOptionsDistinct` | src/components/SettingsPanel.tsx:96-99 | the difficulty select offers four distinct levels |
| `Settings.InitialWithinOptions` | src/components/SettingsPanel.tsx:5-14 | the initial language, daily goal and difficulty are among their rendered options |
| `Settings.RunKeepsOptions` | src/components/SettingsPanel.tsx:48-202 | through the rendered controls, language stays in its six options, the daily goal in {5, 10, 15, 30, 60}, difficulty in its four options, and `autoTranslate` never changes |
| `Settings.SettingsPanel.constructor` | src/components/SettingsPanel.tsx:5-14 | the panel starts with the initial settings record |
| `Settings.SettingsPanel.HandleToggle` | src/components/SettingsPanel.tsx:16-21 | the new record is `Toggle` of the old one, for a boolean field only |
| `Settings.SettingsPanel.HandleSelect` | src/components/SettingsPanel.tsx:23-28 | the new record is `Select` of the old one |

## Left out

- Rendering: JSX, CSS classes, framer-motion animation and the `transform`
  style string are presentation only.
- DOM listener registration in `useEffect` and the bounding-box centre
  computation. The pointer offset is an input to `MouseMove`, and the
  `cardRef` check is the `hasElement` flag.
- Floating point: offsets, opacity and rotation are Dafny `real`s, so
  double rounding is not modelled.
- `Math.random` in the reply picker is the `choice` index parameter.
- `Date.now()`/`new Date()` message ids and timestamps are not modelled.
- `scrollIntoView` is not modelled.
- Text is a sequence of Unicode characters, while JavaScript strings are
  UTF-16 code units. No modelled rule depends on the difference: every
  white-space character `trim` removes is a single code unit, and `"good"`
  is ASCII.
- The 1500 ms `setTimeout` is the explicit `DeliverReply` step. Pending
  timers fire in send order.
- Unmounting: ChatInterface's state is lost when the chat tab is left, and
  a timer that fires afterwards updates an unmounted component. The model
  keeps one chat session alive.
- React's batching of state updates is not modelled. Each handler reads the
  state once and writes it, so applying its writes in order gives the same
  result.
- The mock profiles keep only `id`, `name` and `fluencyLevel`. No rule reads
  the other fields.
- Discovery.Swipe: requires the index to be in range. The card that calls
  `handleSwipe` is rendered only then, and `Discovery.Run` proves the index
  is always in range.
- Settings.Select: only string values for language and difficulty and
  number values for the daily goal are modelled. TypeScript's types also
  allow a string or number into any key, but no control does that.
- Settings.Toggle: only the five boolean fields can be toggled. JavaScript's
  `!` on a string or number field is never used by the panel.
- src/components/UserProfile.tsx is not part of this model. Its only logic is
  an editing flag.
