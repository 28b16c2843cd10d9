/** Concrete runs of the store and the service, as clients whose postconditions
    are the expected outcome. VoteScenario, DuplicateVoteScenario, ClosedVoteScenario
    and CloseScenario replay the program's own tests (main_test.go); StoreThenFind,
    CreateTwiceScenario, TallyScenario and the second close in CloseScenario are
    properties added here, which no test of the program checks. */
module Scenarios {
  import opened Poll
  import opened Keys
  import opened Tally
  import opened Store
  import opened Service

  /** A poll stored under "lunch_1" that is open and has nothing else set. */
  const OpenLunch: Lunch := EmptyLunch.(open := true)

  /** Added property. Storing and then finding under the same key gives back the poll stamped with the key. */
  method StoreThenFind(s: MapStore, k: string, l: Lunch) returns (r: Result<Lunch>)
    requires s.Valid()
    modifies s
    ensures r == Ok(l.(id := Some(k)))
  {
    var stored := s.Store(k, l);
    r := s.Find(k);
  }

  /** Test TestVoteHandler. One vote by user U03NPFSEP ("tom") for "leon" on an open poll is recorded as is. */
  method VoteScenario() returns (found: Result<Lunch>)
    ensures found.Ok? && found.value.votes == [Vote("leon", "U03NPFSEP", "tom")]
  {
    var s := new MapStore();
    var stored := s.Store("lunch_1", OpenLunch);
    var server := new LunchServer(s);
    var voted := server.RecordVote("lunch_1", "U03NPFSEP", "tom", ["leon"]);
    found := s.Find("lunch_1");
  }

  /** Test TestUserCanOnlyVoteOnce. A second vote by the same user, for another value, is refused and the first one stays. */
  method DuplicateVoteScenario() returns (second: Result<Lunch>, found: Result<Lunch>)
    ensures second == Err(DuplicateVote)
    ensures found.Ok? && found.value.votes == [Vote("leon", "U03NPFSEP", "tom")]
  {
    var s := new MapStore();
    var stored := s.Store("lunch_1", OpenLunch);
    var server := new LunchServer(s);
    var first := server.RecordVote("lunch_1", "U03NPFSEP", "tom", ["leon"]);
    assert s.db["lunch_1"].votes[0].userId == "U03NPFSEP";
    second := server.RecordVote("lunch_1", "U03NPFSEP", "tom", ["pret"]);
    found := s.Find("lunch_1");
  }

  /** Test TestCannotVoteOnClosedVote. A vote on a poll that was never opened is refused and no vote is recorded. */
  method ClosedVoteScenario() returns (r: Result<Lunch>, found: Result<Lunch>)
    ensures r == Err(VotingClosed)
    ensures found.Ok? && found.value.votes == []
  {
    var s := new MapStore();
    var stored := s.Store("lunch_1", EmptyLunch);
    var server := new LunchServer(s);
    r := server.RecordVote("lunch_1", "U03NPFSEP", "tom", ["leon"]);
    found := s.Find("lunch_1");
  }

  /** Test TestCloseHandlerClosesVote: closing an open poll leaves it stored closed.
      Added property: closing it again is not an error and gives the same poll. */
  method CloseScenario() returns (found: Result<Lunch>, again: Result<Lunch>)
    ensures found.Ok? && !found.value.open
    ensures again.Ok? && again == found
  {
    var s := new MapStore();
    var stored := s.Store("lunch_1", OpenLunch);
    var server := new LunchServer(s);
    var closed := server.Close("lunch_1");
    found := s.Find("lunch_1");
    again := server.Close("lunch_1");
  }

  /** Added property. Creating this week's poll twice: the first succeeds with the poll open under
      the week's key, the second is refused. */
  method CreateTwiceScenario(week: nat) returns (first: Result<Lunch>, second: Result<Lunch>)
    requires 1 <= week <= 53
    ensures first.Ok? && first.value.open && first.value.id == Some(CurrentKey(week))
    ensures first.value.options == [LunchOption("pret", "pret"), LunchOption("leon", "leon")]
    ensures second == Err(AlreadyExists)
  {
    var s := new MapStore();
    var server := new LunchServer(s);
    var slots := ["pret", "", "leon", "", ""];
    first := server.Create(week, "What's for lunch?", slots, true);
    second := server.Create(week, "What's for lunch?", slots, true);
    assert slots[..4][..3] == slots[..3] && slots[..3][..2] == slots[..2];
    assert slots[..2][..1] == slots[..1] && slots[..1][..0] == [];
    assert OptionsFromSlots(slots[..1]) == [LunchOption("pret", "pret")];
    assert OptionsFromSlots(slots[..2]) == [LunchOption("pret", "pret")];
    assert OptionsFromSlots(slots[..3]) == [LunchOption("pret", "pret"), LunchOption("leon", "leon")];
    assert OptionsFromSlots(slots[..4]) == OptionsFromSlots(slots[..3]);
    assert slots[..5] == slots;
  }

  /** Added property. Two votes for "leon" and one for "pret" tally as leon: 2, pret: 1. */
  method TallyScenario() returns (counts: map<string, int>)
    ensures counts == map["leon" := 2, "pret" := 1]
  {
    var votes := [Vote("leon", "U1", "a"), Vote("leon", "U2", "b"), Vote("pret", "U3", "c")];
    counts := TallyVotes(votes);
    var expected := map["leon" := 2, "pret" := 1];
    assert VoteValues(votes) == {"leon", "pret"} by {
      assert votes[0].value == "leon" && votes[2].value == "pret";
    }
    assert votes[..2] == votes[..|votes| - 1] && votes[..2][..1] == votes[..1] && votes[..1][..0] == [];
    assert CountOf(votes[..1], "leon") == 1 && CountOf(votes[..1], "pret") == 0;
    assert CountOf(votes[..2], "leon") == 2 && CountOf(votes[..2], "pret") == 0;
    assert CountOf(votes, "leon") == 2 && CountOf(votes, "pret") == 1;
    MapSumRemove(expected, "leon");
    assert expected - {"leon"} == map["pret" := 1];
    MapSumRemove(map["pret" := 1], "pret");
    assert map["pret" := 1] - {"pret"} == map[];
    TallyUnique(counts, expected, votes);
  }
}
