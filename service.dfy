/** The poll service: the business logic of the create, vote, close and view
    requests, with request parsing and rendering replaced by plain arguments
    and results. */
module Service {
  import opened Poll
  import opened Keys
  import opened Tally
  import opened Store
  import opened SlackMessage

  /** What the poll page shows: the identifier, the question, the tally and whether voting is open. */
  datatype PollView = PollView(id: string, question: string, votes: map<string, int>, open: bool)

  /** Walks the votes and reports whether `userId` has one. */
  method AlreadyVoted(votes: seq<Vote>, userId: string) returns (found: bool)
    ensures found <==> HasVoted(votes, userId)
  {
    var i := 0;
    while i < |votes|
      invariant 0 <= i <= |votes|
      invariant forall j :: 0 <= j < i ==> votes[j].userId != userId
    {
      if votes[i].userId == userId {
        return true;
      }
      i := i + 1;
    }
    return false;
  }

  /** Walks the form slots in order and appends an option for every non-empty one. */
  method CollectOptions(slots: seq<string>) returns (opts: seq<LunchOption>)
    ensures opts == OptionsFromSlots(slots)
  {
    opts := [];
    var i := 0;
    while i < |slots|
      invariant 0 <= i <= |slots|
      invariant opts == OptionsFromSlots(slots[..i])
    {
      var v := slots[i];
      assert slots[..i + 1][..i] == slots[..i];
      if |v| > 0 {
        opts := opts + [LunchOption(v, v)];
      }
      i := i + 1;
    }
    assert slots[..i] == slots;
  }

  /** A button pressed on the message announcing a stored poll names that poll's key. */
  lemma CallbackNamesKey(s: MapStore, key: string)
    requires s.Valid() && key in s.db
    ensures ToMessage(s.db[key]).attachments[0].callbackId == key
  {
  }

  class LunchServer {
    const s: MapStore

    constructor (store: MapStore)
      ensures s == store
    {
      s := store;
    }

    /** Creates this week's poll from a question and the five option slots of the form,
        unless a poll with an identifier is already stored under this week's key.
        `posted` is the outcome of announcing the poll in the chat channel, which
        happens after the poll is stored. */
    method Create(week: nat, question: string, slots: seq<string>, posted: bool) returns (r: Result<Lunch>)
      requires 1 <= week <= 53
      requires |slots| == 5
      requires s.Valid()
      modifies s
      ensures s.Valid()
      ensures CurrentKey(week) in old(s.db) ==> r == Err(AlreadyExists) && s.db == old(s.db)
      ensures CurrentKey(week) !in old(s.db) ==>
        var l := NewLunch(CurrentKey(week), question, slots);
        && s.db == old(s.db)[CurrentKey(week) := l]
        && r == (if posted then Ok(l) else Err(DeliveryError))
    {
      var key := CurrentKey(week);
      var found := s.Find(key);
      if found.Ok? && found.value.id != None {
        return Err(AlreadyExists);
      }
      var l := EmptyLunch.(id := Some(key), question := question);
      var opts := CollectOptions(slots);
      l := l.(options := opts, open := true);
      l := s.Store(key, l);
      if !posted {
        return Err(DeliveryError);
      }
      return Ok(l);
    }

    /** Records the vote of `userId` for the value of the first action of the callback
        on the poll stored under `key`. The program reads that first action only once
        the poll is found open, and fails if there is none. */
    method RecordVote(key: string, userId: string, userName: string, actions: seq<string>) returns (r: Result<Lunch>)
      requires s.Valid()
      requires key in s.db && s.db[key].open ==> |actions| > 0
      modifies s
      ensures s.Valid()
      ensures key !in old(s.db) ==> r == Err(NotFound) && s.db == old(s.db)
      ensures key in old(s.db) && !old(s.db)[key].open ==> r == Err(VotingClosed) && s.db == old(s.db)
      ensures key in old(s.db) && old(s.db)[key].open ==>
        && r == CastVote(old(s.db)[key], userId, userName, actions[0])
        && s.db == (if r.Ok? then old(s.db)[key := r.value] else old(s.db))
      ensures key in old(s.db) && OneVotePerUser(old(s.db)[key].votes) ==>
        key in s.db && OneVotePerUser(s.db[key].votes)
    {
      var found := s.Find(key);
      if found.Err? {
        return Err(NotFound);
      }
      var l := found.value;
      if !l.open {
        return Err(VotingClosed);
      }
      var value := actions[0];
      var voted := AlreadyVoted(l.votes, userId);
      if voted {
        return Err(DuplicateVote);
      }
      CastVoteKeepsOneVotePerUser(l, userId, userName, value);
      l := l.(votes := l.votes + [Vote(value, userId, userName)]);
      // The program writes back under the poll's own identifier, which is the key.
      var stored := s.Store(IdString(l.id), l);
      return Ok(stored);
    }

    /** Stops voting on the poll stored under `key`; closing a closed poll succeeds
        and changes nothing. */
    method Close(key: string) returns (r: Result<Lunch>)
      requires s.Valid()
      modifies s
      ensures s.Valid()
      ensures key !in old(s.db) ==> r == Err(NotFound) && s.db == old(s.db)
      ensures key in old(s.db) ==>
        && r == Ok(ClosePoll(old(s.db)[key]))
        && s.db == old(s.db)[key := ClosePoll(old(s.db)[key])]
      ensures key in old(s.db) && !old(s.db)[key].open ==> s.db == old(s.db)
    {
      var found := s.Find(key);
      if found.Err? {
        return Err(NotFound);
      }
      var l := found.value.(open := false);
      l := s.Store(key, l);
      return Ok(l);
    }

    /** Reads the poll stored under `key` and tallies its votes by value. */
    method View(key: string) returns (r: Result<PollView>)
      ensures key !in s.db ==> r == Err(NotFound)
      ensures key in s.db ==>
        && r.Ok?
        && r.value.id == IdString(s.db[key].id)
        && r.value.question == s.db[key].question
        && r.value.open == s.db[key].open
        && IsTallyOf(r.value.votes, s.db[key].votes)
    {
      var found := s.Find(key);
      if found.Err? {
        return Err(NotFound);
      }
      var l := found.value;
      var counted := TallyVotes(l.votes);
      return Ok(PollView(IdString(l.id), l.question, counted, l.open));
    }
  }
}
