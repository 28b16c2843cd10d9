/** The poll aggregate: one week's lunch poll, its options and its votes,
    and the rules that decide how a single poll changes. */
module Poll {

  datatype Option<+T> = None | Some(value: T)

  /** The failures a poll operation reports to its caller. */
  datatype Error =
    | NotFound        // no poll is stored under the key
    | AlreadyExists   // a poll for this week has already been created
    | VotingClosed    // the poll no longer accepts votes
    | DuplicateVote   // the user already has a vote on the poll
    | DeliveryError   // the chat client could not post the poll

  datatype Result<+T> = Ok(value: T) | Err(error: Error)

  /** A choice offered by a poll: the label shown and the token a vote carries. */
  datatype LunchOption = LunchOption(text: string, value: string)

  /** One user's choice, recorded on a poll. */
  datatype Vote = Vote(value: string, userId: string, userName: string)

  /** A poll. The identifier is a byte slice in the program and may be nil,
      hence the Option; the key-value store stamps it with the poll's key. */
  datatype Lunch = Lunch(
    id: Option<string>,
    options: seq<LunchOption>,
    votes: seq<Vote>,
    question: string,
    open: bool)

  /** The zero poll: no identifier, no options, no votes, closed. */
  const EmptyLunch: Lunch := Lunch(None, [], [], "", false)

  /** The identifier as a string; a nil identifier converts to "". */
  function IdString(id: Option<string>): (s: string)
    ensures id == None ==> s == ""
    ensures forall k :: id == Some(k) ==> s == k
  {
    match id
    case None => ""
    case Some(s) => s
  }

  /** Some vote in `votes` was cast by `userId`. */
  predicate HasVoted(votes: seq<Vote>, userId: string)
  {
    exists i :: 0 <= i < |votes| && votes[i].userId == userId
  }

  /** No user has more than one vote in `votes`. */
  ghost predicate OneVotePerUser(votes: seq<Vote>)
  {
    forall i, j :: 0 <= i < j < |votes| ==> votes[i].userId != votes[j].userId
  }

  /** The options a new poll gets from its form slots: every non-empty slot,
      in slot order, used as both label and value. */
  function OptionsFromSlots(slots: seq<string>): (opts: seq<LunchOption>)
    ensures |opts| <= |slots|
    ensures forall i :: 0 <= i < |opts| ==> opts[i].text == opts[i].value && opts[i].value != ""
    decreases |slots|
  {
    if slots == [] then []
    else
      var rest := OptionsFromSlots(slots[..|slots| - 1]);
      var v := slots[|slots| - 1];
      if |v| > 0 then rest + [LunchOption(v, v)] else rest
  }

  /** Concatenating slot lists concatenates their options: the options keep slot order. */
  lemma {:induction false} OptionsFromSlotsAppend(a: seq<string>, b: seq<string>)
    ensures OptionsFromSlots(a + b) == OptionsFromSlots(a) + OptionsFromSlots(b)
    decreases |b|
  {
    if b == [] {
      assert a + b == a;
    } else {
      var b' := b[..|b| - 1];
      assert (a + b)[..|a + b| - 1] == a + b';
      assert (a + b)[|a + b| - 1] == b[|b| - 1];
      OptionsFromSlotsAppend(a, b');
    }
  }

  /** An option is produced exactly when some slot holds its value, that value is
      non-empty, and its label equals its value. */
  lemma {:induction false} OptionsFromSlotsMembers(slots: seq<string>, o: LunchOption)
    ensures o in OptionsFromSlots(slots) <==> o.value in slots && o.value != "" && o.text == o.value
    decreases |slots|
  {
    if slots != [] {
      var init := slots[..|slots| - 1];
      assert slots == init + [slots[|slots| - 1]];
      OptionsFromSlotsMembers(init, o);
    }
  }

  /** The poll the create operation builds under `key`: open, carrying its key,
      without votes, with at most one option per slot, every option non-empty
      with its label equal to its value. */
  function NewLunch(key: string, question: string, slots: seq<string>): (l: Lunch)
    ensures l.open && l.id == Some(key) && l.question == question
    ensures l.votes == [] && OneVotePerUser(l.votes)
    ensures |l.options| <= |slots|
    ensures forall o :: o in l.options ==> o.text == o.value && o.value != "" && o.value in slots
  {
    var opts := OptionsFromSlots(slots);
    assert forall o :: o in opts ==> o.value in slots by {
      forall o | o in opts
        ensures o.value in slots
      {
        OptionsFromSlotsMembers(slots, o);
      }
    }
    Lunch(Some(key), opts, [], question, true)
  }

  /** The vote rule applied to a poll already found: refuse a closed poll,
      then refuse a user who has voted, otherwise append exactly one vote. */
  function CastVote(l: Lunch, userId: string, userName: string, value: string): (r: Result<Lunch>)
    ensures r.Ok? <==> l.open && !HasVoted(l.votes, userId)
    ensures r.Err? ==> r.error == (if l.open then DuplicateVote else VotingClosed)
  {
    if !l.open then Err(VotingClosed)
    else if HasVoted(l.votes, userId) then Err(DuplicateVote)
    else Ok(l.(votes := l.votes + [Vote(value, userId, userName)]))
  }

  /** A successful vote keeps every existing vote in place, adds exactly one vote
      built from the inputs at the end, and changes no other field. */
  lemma CastVoteAppends(l: Lunch, userId: string, userName: string, value: string)
    requires CastVote(l, userId, userName, value).Ok?
    ensures var l' := CastVote(l, userId, userName, value).value;
      && |l'.votes| == |l.votes| + 1
      && l'.votes[..|l.votes|] == l.votes
      && l'.votes[|l.votes|] == Vote(value, userId, userName)
      && l'.id == l.id && l'.question == l.question
      && l'.options == l.options && l'.open == l.open
  {
  }

  /** Voting keeps "at most one vote per user". */
  lemma CastVoteKeepsOneVotePerUser(l: Lunch, userId: string, userName: string, value: string)
    requires CastVote(l, userId, userName, value).Ok?
    ensures OneVotePerUser(l.votes) ==> OneVotePerUser(CastVote(l, userId, userName, value).value.votes)
  {
  }

  /** The close rule: the poll stops accepting votes; nothing else changes. */
  function ClosePoll(l: Lunch): (c: Lunch)
    ensures !c.open
    ensures c.id == l.id && c.options == l.options && c.votes == l.votes && c.question == l.question
  {
    l.(open := false)
  }

  /** Closing twice is closing once, and closing a closed poll changes nothing. */
  lemma ClosePollIdempotent(l: Lunch)
    ensures ClosePoll(ClosePoll(l)) == ClosePoll(l)
    ensures !l.open ==> ClosePoll(l) == l
  {
  }

  /** There is no way back: no vote reopens a closed poll, and a closed poll refuses every vote. */
  lemma ClosedIsTerminal(l: Lunch, userId: string, userName: string, value: string)
    ensures CastVote(ClosePoll(l), userId, userName, value) == Err(VotingClosed)
    ensures CastVote(l, userId, userName, value).Ok? ==> CastVote(l, userId, userName, value).value.open
  {
  }
}
