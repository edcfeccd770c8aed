/** The `AIProfile` record shared by App.tsx, ProfileCard.tsx and
    ChatInterface.tsx, and the three mock profiles App.tsx hard-codes.
    Only the fields that some rule of the model reads are kept. */
module Profiles {

  datatype Profile = Profile(id: string, name: string, fluencyLevel: string)

  /** `mockAIProfiles`, in the order App.tsx lists them. */
  const MockAIProfiles: seq<Profile> := [
    Profile("1", "Mar\U{ED}a Garc\U{ED}a", "Advanced"),
    Profile("2", "Pierre Dubois", "Intermediate"),
    Profile("3", "Yuki Tanaka", "Intermediate")
  ]

  /** Three profiles with distinct ids, the keys the chat list renders them by. */
  lemma MockProfilesHaveDistinctIds()
    ensures |MockAIProfiles| == 3
    ensures forall i, j :: 0 <= i < j < |MockAIProfiles| ==> MockAIProfiles[i].id != MockAIProfiles[j].id
  {
  }

}
