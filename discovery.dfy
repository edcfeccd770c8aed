/** The discovery sequencer and tab state of App.tsx: which tab is active,
    which mock profile is on the card, the ordered list of matched
    profiles and the chat that is open. */
module Discovery {
  import opened Wrappers
  import opened Profiles
  import ProfileCard

  datatype Tab = DiscoverTab | ChatTab | ProfileTab | SettingsTab

  /** The four state cells of `App`. */
  datatype AppState = AppState(
    activeTab: Tab,
    currentProfileIndex: nat,
    matchedProfiles: seq<Profile>,
    selectedChat: Option<Profile>)

  const Initial: AppState := AppState(DiscoverTab, 0, [], None)

  /** The index names one of the mock profiles. */
  predicate InBounds(s: AppState)
  {
    s.currentProfileIndex < |MockAIProfiles|
  }

  /** `currentProfile`, the profile on the card. */
  function CurrentProfile(s: AppState): (p: Profile)
    requires InBounds(s)
    ensures p in MockAIProfiles
    ensures DiscoverContent(s) == CardView(p)
  {
    MockAIProfiles[s.currentProfileIndex]
  }

  /** `handleSwipe`: a right swipe appends the current profile to the
      matches; either swipe moves to the next profile unless the last one
      is already shown. */
  function Swipe(s: AppState, dir: ProfileCard.Direction): (r: AppState)
    requires InBounds(s)
    ensures InBounds(r)
    ensures dir == ProfileCard.Right ==> r.matchedProfiles == s.matchedProfiles + [CurrentProfile(s)]
    ensures dir == ProfileCard.Left ==> r.matchedProfiles == s.matchedProfiles
    ensures r.currentProfileIndex == s.currentProfileIndex + 1 <==> s.currentProfileIndex < |MockAIProfiles| - 1
    ensures r.currentProfileIndex != s.currentProfileIndex + 1 ==> r.currentProfileIndex == s.currentProfileIndex
    ensures r.activeTab == s.activeTab && r.selectedChat == s.selectedChat
  {
    var matched := if dir == ProfileCard.Right then s.matchedProfiles + [CurrentProfile(s)] else s.matchedProfiles;
    var index := if s.currentProfileIndex < |MockAIProfiles| - 1 then s.currentProfileIndex + 1 else s.currentProfileIndex;
    s.(matchedProfiles := matched, currentProfileIndex := index)
  }

  /** The "Start Over" button: back to the first profile, matches kept. */
  function StartOver(s: AppState): (r: AppState)
    ensures InBounds(r) && r.currentProfileIndex == 0
    ensures r.matchedProfiles == s.matchedProfiles
    ensures r.activeTab == s.activeTab && r.selectedChat == s.selectedChat
  {
    s.(currentProfileIndex := 0)
  }

  /** A bottom-navigation button: only the active tab changes. */
  function SelectTab(s: AppState, tab: Tab): (r: AppState)
    ensures r.activeTab == tab
    ensures r.currentProfileIndex == s.currentProfileIndex
    ensures r.matchedProfiles == s.matchedProfiles
    ensures r.selectedChat == s.selectedChat
  {
    s.(activeTab := tab)
  }

  /** `onSelectChat` of the chat view: opens a chat, or closes it with `None`. */
  function SelectChat(s: AppState, chat: Option<Profile>): (r: AppState)
    ensures r.selectedChat == chat
    ensures r.activeTab == s.activeTab
    ensures r.currentProfileIndex == s.currentProfileIndex
    ensures r.matchedProfiles == s.matchedProfiles
  {
    s.(selectedChat := chat)
  }

  /** What the discover tab renders. */
  datatype DiscoverView = CardView(profile: Profile) | NoMoreProfiles

  function DiscoverContent(s: AppState): (v: DiscoverView)
    ensures v.NoMoreProfiles? <==> !InBounds(s)
    ensures v.CardView? ==> v.profile == MockAIProfiles[s.currentProfileIndex]
  {
    if s.currentProfileIndex < |MockAIProfiles| then CardView(MockAIProfiles[s.currentProfileIndex])
    else NoMoreProfiles
  }

  /** The red badge on the chat tab: shown, with the number of matches,
      exactly when there is at least one match. */
  function ChatBadge(s: AppState): (r: Option<nat>)
    ensures r.Some? <==> |s.matchedProfiles| > 0
    ensures r.Some? ==> r.value == |s.matchedProfiles| && r.value > 0
  {
    if |s.matchedProfiles| > 0 then Some(|s.matchedProfiles|) else None
  }

  // ----- runs of user actions -----

  datatype Action =
    | SwipeAction(dir: ProfileCard.Direction)
    | StartOverAction
    | SelectTabAction(tab: Tab)
    | SelectChatAction(chat: Option<Profile>)

  function Apply(s: AppState, a: Action): (r: AppState)
    requires InBounds(s)
    ensures InBounds(r)
  {
    match a
    case SwipeAction(dir) => Swipe(s, dir)
    case StartOverAction => StartOver(s)
    case SelectTabAction(tab) => SelectTab(s, tab)
    case SelectChatAction(chat) => SelectChat(s, chat)
  }

  /** The state after a sequence of actions. Its contract is the index
      invariant: whatever the user does, the index stays on a profile. */
  function Run(s: AppState, actions: seq<Action>): (r: AppState)
    requires InBounds(s)
    ensures InBounds(r)
    decreases |actions|
  {
    if actions == [] then s else Run(Apply(s, actions[0]), actions[1..])
  }

  /** The "No more profiles to discover!" branch, and with it the Start Over
      button, can never be reached from the initial state. */
  lemma ExhaustedViewUnreachable(actions: seq<Action>)
    ensures DiscoverContent(Run(Initial, actions)).CardView?
  {
  }

  function CountRight(actions: seq<Action>): nat
    decreases |actions|
  {
    if actions == [] then 0
    else (if actions[0] == SwipeAction(ProfileCard.Right) then 1 else 0) + CountRight(actions[1..])
  }

  /** The match list is append-only and grows by exactly one per right
      swipe, duplicates included. */
  lemma {:induction false} RunMatchesAppendOnly(s: AppState, actions: seq<Action>)
    requires InBounds(s)
    ensures s.matchedProfiles <= Run(s, actions).matchedProfiles
    ensures |Run(s, actions).matchedProfiles| == |s.matchedProfiles| + CountRight(actions)
    decreases |actions|
  {
    if actions != [] {
      var next := Apply(s, actions[0]);
      RunMatchesAppendOnly(next, actions[1..]);
      assert s.matchedProfiles <= next.matchedProfiles;
    }
  }

  /** Every match is one of the mock profiles. */
  lemma {:induction false} RunMatchesAreProfiles(s: AppState, actions: seq<Action>)
    requires InBounds(s)
    requires forall i :: 0 <= i < |s.matchedProfiles| ==> s.matchedProfiles[i] in MockAIProfiles
    ensures forall i :: 0 <= i < |Run(s, actions).matchedProfiles| ==> Run(s, actions).matchedProfiles[i] in MockAIProfiles
    decreases |actions|
  {
    if actions != [] {
      var next := Apply(s, actions[0]);
      assert forall i :: 0 <= i < |next.matchedProfiles| ==> next.matchedProfiles[i] in MockAIProfiles;
      RunMatchesAreProfiles(next, actions[1..]);
    }
  }

  /** On the last profile the index stays put, so two right swipes add the
      same profile twice. */
  lemma RepeatedRightSwipeOnLastDuplicates(s: AppState)
    requires s.currentProfileIndex == |MockAIProfiles| - 1
    ensures Swipe(Swipe(s, ProfileCard.Right), ProfileCard.Right).matchedProfiles
            == s.matchedProfiles + [MockAIProfiles[2], MockAIProfiles[2]]
    ensures Swipe(Swipe(s, ProfileCard.Right), ProfileCard.Right).currentProfileIndex == s.currentProfileIndex
  {
  }

  /** Accept, reject, accept over the three profiles: the matches are the
      first and third profile in that order, and the third profile is still
      on the card (the sequencer never runs past the last profile). */
  lemma AcceptRejectAcceptScenario()
    ensures Run(Initial, [SwipeAction(ProfileCard.Right), SwipeAction(ProfileCard.Left), SwipeAction(ProfileCard.Right)])
            == AppState(DiscoverTab, 2, [MockAIProfiles[0], MockAIProfiles[2]], None)
  {
    var s1 := Swipe(Initial, ProfileCard.Right);
    var s2 := Swipe(s1, ProfileCard.Left);
    assert Run(s2, [SwipeAction(ProfileCard.Right)]) == Swipe(s2, ProfileCard.Right);
  }

  /** The component's state cells and its handlers. */
  class App {
    var activeTab: Tab
    var currentProfileIndex: nat
    var matchedProfiles: seq<Profile>
    var selectedChat: Option<Profile>

    function State(): AppState
      reads this
    {
      AppState(activeTab, currentProfileIndex, matchedProfiles, selectedChat)
    }

    ghost predicate Valid()
      reads this
    {
      InBounds(State())
    }

    constructor ()
      ensures Valid()
      ensures State() == Initial
    {
      activeTab := DiscoverTab;
      currentProfileIndex := 0;
      matchedProfiles := [];
      selectedChat := None;
    }

    method HandleSwipe(dir: ProfileCard.Direction)
      requires Valid()
      modifies this
      ensures Valid()
      ensures State() == Swipe(old(State()), dir)
    {
      if dir == ProfileCard.Right {
        matchedProfiles := matchedProfiles + [MockAIProfiles[currentProfileIndex]];
      }
      if currentProfileIndex < |MockAIProfiles| - 1 {
        currentProfileIndex := currentProfileIndex + 1;
      }
    }

    method HandleStartOver()
      requires Valid()
      modifies this
      ensures Valid()
      ensures State() == StartOver(old(State()))
    {
      currentProfileIndex := 0;
    }

    method SetActiveTab(tab: Tab)
      requires Valid()
      modifies this
      ensures Valid()
      ensures State() == SelectTab(old(State()), tab)
    {
      activeTab := tab;
    }

    method SetSelectedChat(chat: Option<Profile>)
      requires Valid()
      modifies this
      ensures Valid()
      ensures State() == SelectChat(old(State()), chat)
    {
      selectedChat := chat;
    }

    /** The card's X button: `onSwipe('left')` directly, whatever the
        card's drag state, with no threshold check. */
    method ClickReject()
      requires Valid()
      modifies this
      ensures Valid()
      ensures State() == Swipe(old(State()), ProfileCard.Left)
    {
      HandleSwipe(ProfileCard.Left);
    }

    /** The card's heart button: `onSwipe('right')` directly, whatever the
        card's drag state, with no threshold check. */
    method ClickLike()
      requires Valid()
      modifies this
      ensures Valid()
      ensures State() == Swipe(old(State()), ProfileCard.Right)
    {
      HandleSwipe(ProfileCard.Right);
    }

    /** The card's `onSwipe` wired to `handleSwipe`: a mouse release on the
        card, and the swipe it emits, if any, applied to the sequencer. */
    method ReleaseCard(card: ProfileCard.Card) returns (swipe: Option<ProfileCard.Direction>)
      requires Valid() && card.Valid()
      modifies this, card
      ensures Valid() && card.Valid()
      ensures card.State() == ProfileCard.Initial
      ensures swipe == ProfileCard.MouseUp(old(card.State())).swipe
      ensures swipe.None? ==> State() == old(State())
      ensures swipe.Some? ==> State() == Swipe(old(State()), swipe.value)
    {
      swipe := card.HandleMouseUp();
      if swipe.Some? {
        HandleSwipe(swipe.value);
      }
    }
  }

}
