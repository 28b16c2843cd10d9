# Lunch poll: a verified model

This project models the core of a small team lunch-poll service. Someone proposes this week's poll: a question plus up to five options. The poll is announced in a chat channel as one button per option. Each user votes once by pressing a button. The poll page shows the tally of votes by value, and the poll can be closed.

The model covers:

- the poll aggregate (`lunch`, `lunchOption`, `vote`);
- the in-memory key-value store that the program's tests run the service against (`mapStore`, main_test.go:188-226). The deployed program uses a BoltDB store instead (main.go:56, 64), which is not part of this model;
- the business logic of the create, vote, close and view handlers;
- the weekly key `lunch_<week>`;
- the mapping from a poll to its chat message.

Modules, one per component:

- `Poll` (poll.dfy): the data model, the result/error datatype, and the per-poll rules for building options, casting a vote and closing.
- `Keys` (keys.dfy): decimal rendering and reading of numbers, and the week key.
- `SlackMessage` (slack_message.dfy): the announcement message as a plain datatype, and its inverse.
- `Tally` (tally.dfy): vote counting by value, with the counting loop proved against an exact counting definition.
- `Store` (map_store.dfy): class `MapStore`, whose field `db: map<string, Lunch>` is updated in place.
- `Service` (service.dfy): class `LunchServer` over a `MapStore`, with one method per handler.
- `Scenarios` (scenarios.dfy): concrete runs as client methods whose postconditions are the expected outcomes. `VoteScenario`, `DuplicateVoteScenario`, `ClosedVoteScenario` and `CloseScenario` replay the four handler tests of main_test.go. `StoreThenFind`, `CreateTwiceScenario`, `TallyScenario` and the second close in `CloseScenario` are added properties that no test of the program checks.

Choices worth knowing:

- A poll's identifier is a byte slice that may be nil, so it is modelled as `Option<string>`.
- `MapStore.Valid()` states the store invariant that `Store` creates: every stored poll's identifier is its key. This invariant is why the create handler's test (found, and identifier not nil) is the same as "the key is present". It is also why the vote handler, which writes back under the poll's own identifier, writes under the key.
- The outcome of posting the announcement is the parameter `posted` of `Create`. The poll is stored before the announcement is posted, so a failed announcement leaves the poll stored. Retrying then fails with `AlreadyExists`.
- The create handler's comment at main.go:161 asks whether the form has a message and at least two choices. Nothing enforces this: any number of non-empty slots out of five is accepted, including none. The model follows the code, so `OptionsFromSlots` may return `[]`.
- The vote handler discards the JSON decoding error (main.go:208), so no parse error exists. Go's decoder keeps every field it could read. Text that is not JSON at all leaves the callback id empty, and then no poll is found. A payload with one ill-typed field still yields the other fields. For example, a numeric user id leaves the user id empty, and the vote is recorded with that empty id. The model starts from the extracted fields, so it admits every such input.

## Model

| member | source | states |
|---|---|---|
| `Poll.OptionsFromSlots` | main.go:173-185 | at most one option per slot; every option is non-empty and has its label equal to its value |
| `Poll.OptionsFromSlotsAppend` | main.go:175-185 | options of concatenated slot lists are the concatenated options, so options come out in slot order |
| `Poll.OptionsFromSlotsMembers` | main.go:176-184 | an option is produced iff some slot holds its value, the value is non-empty and the label equals the value |
| `Poll.IdString` | main.go:148 | converting the identifier gives the empty string for a nil identifier and the key itself for a stamped one |
| `Poll.NewLunch` | main.go:169-186 | the poll create builds is open, carries the key as identifier and the question, has no votes, and has at most one option per slot, each taken from a non-empty slot with label equal to value |
| `Poll.CastVote` | main.go:216-238 | a vote succeeds iff the poll is open and the user has no vote; a closed poll gives VotingClosed, otherwise a repeat voter gives DuplicateVote |
| `Poll.CastVoteAppends` | main.go:233-238 | a successful vote keeps the old votes as a prefix, appends exactly one vote built from the value, user id and user name, and changes no other field |
| `Poll.CastVoteKeepsOneVotePerUser` | main.go:225-238 | if no user had two votes before a vote, none has after it |
| `Poll.ClosePoll` | main.go:258 | the closed poll is not open and has the same identifier, options, votes and question |
| `Poll.ClosePollIdempotent` | main.go:258-260 | closing twice equals closing once; closing a closed poll changes nothing |
| `Poll.ClosedIsTerminal` | main.go:216-219 | every vote on a closed poll fails with VotingClosed, and a successful vote leaves the poll open (no reopen path) |
| `Keys.Itoa` | main.go:363 | the decimal rendering is a non-empty string of digits |
| `Keys.AtoiItoa` | main.go:363 | reading back the decimal rendering of a number gives the number |
| `Keys.ItoaLength` | main_test.go:178-186 | numbers below 10 render as one digit, 10 to 99 as two digits, and never with a leading zero |
| `Keys.CurrentKey` | main.go:361-365 | the key is "lunch_" followed by one or two digits, and it names exactly the week it was built from |
| `Keys.CurrentKeyInjective` | main.go:361-365 | two weeks share a key iff they are the same week |
| `SlackMessage.Button` | main.go:279-284 | a button is named "lunch", is of kind "button", and gives back the option it was made from |
| `SlackMessage.ToMessage` | main.go:268-290 | the message has exactly one attachment, with one action per option |
| `SlackMessage.ToMessageRoundTrip` | main.go:268-290 | the options can be read back from the buttons in order; the attachment carries the question as text and the identifier as callback id; every button is named "lunch" and is of kind "button" |
| `Tally.CountOfPositive` | main.go:137-140 | a value has a positive count iff some vote carries it; no count exceeds the number of votes |
| `Tally.TallyStep` | main.go:138-139 | adding one to the voted value's count (starting a new value at 0) turns the tally of a prefix into the tally of the prefix plus that vote |
| `Tally.TallyUnique` | main.go:137-140 | a list of votes has exactly one tally |
| `Tally.TallyVotes` | main.go:137-140 | the counted map's keys are exactly the values voted for; each count is the number of votes with that value; the counts sum to the number of votes |
| `Store.MapStore.constructor` | main_test.go:17-19 | a new store is empty and valid |
| `Store.MapStore.Find` | main_test.go:194-204 | returns the stored poll for a present key and NotFound for an absent one |
| `Store.MapStore.Store` | main_test.go:206-214 | the new map is the old one with the key overwritten, unconditionally, by the poll stamped with the key, so every other key is unchanged; returns the stamped poll and never fails |
| `Store.MapStore.List` | main_test.go:216-226 | returns one poll per stored key: as many polls as keys, each a stored value, every stored value present, drawn from distinct keys |
| `Service.AlreadyVoted` | main.go:225-231 | reports true iff some existing vote has the user's id |
| `Service.CollectOptions` | main.go:173-185 | the loop over the five slots builds exactly `OptionsFromSlots` of the slots |
| `Service.CallbackNamesKey` | main.go:272 | the callback id on the announcement of a stored poll is the poll's key, so a button press finds that poll |
| `Service.LunchServer.constructor` | main.go:86-89 | the server runs against the store it is given |
| `Service.LunchServer.Create` | main.go:159-201 | if this week's key is taken, AlreadyExists and the store is unchanged; otherwise the key now holds the new open poll with the slot options and no votes, all other keys are unchanged, and the result is that poll or DeliveryError |
| `Service.LunchServer.RecordVote` | main.go:203-246 | a missing key gives NotFound and a closed poll VotingClosed, both with the store unchanged; otherwise the result is `CastVote`, stored under the key only on success; "one vote per user" is preserved |
| `Service.LunchServer.Close` | main.go:248-266 | a missing key gives NotFound with the store unchanged; otherwise the key holds the closed poll and nothing else changes; closing a closed poll leaves the store as it was |
| `Service.LunchServer.View` | main.go:127-157 | a missing key gives NotFound; otherwise the view carries the poll's identifier, question and open flag, and the exact tally of its votes |
| `Scenarios.StoreThenFind` | main_test.go:206-213 | added property: finding a key right after storing a poll under it returns that poll with the key as identifier |
| `Scenarios.VoteScenario` | main_test.go:15-57 | one vote by U03NPFSEP/tom for leon on an open poll leaves exactly that one vote |
| `Scenarios.DuplicateVoteScenario` | main_test.go:59-100 | a second vote by the same user is refused with DuplicateVote and the single first vote remains |
| `Scenarios.ClosedVoteScenario` | main_test.go:102-138 | a vote on a poll that is not open is refused with VotingClosed and records nothing |
| `Scenarios.CloseScenario` | main_test.go:140-176 | closing an open poll leaves it stored closed (the test's assertion); closing it again succeeds with the same poll (added) |
| `Scenarios.CreateTwiceScenario` | main.go:163-188 | added property: creating this week's poll succeeds: it is open under the week's key and has the non-empty slots as options, in order; creating it again fails with AlreadyExists |
| `Scenarios.TallyScenario` | main.go:137-140 | added property: votes leon, leon, pret tally exactly as leon: 2, pret: 1 |

## Left out

- HTTP routing, form parsing, status codes, redirects and HTML templates are transport. Handler inputs are plain arguments and outcomes are the `Result` datatype. This also covers `indexHandler`, which only redirects to an existing poll or renders the form, and the empty `navigationHandler`.
- Decoding the vote callback's JSON payload and the chat client are foreign library calls. `RecordVote` starts from the callback id, the action values, and the user's id and name. Posting the announcement is the `posted` parameter.
- `Service.LunchServer.RecordVote`: its precondition requires at least one action whenever the poll is found open. The program indexes the first action at that point and panics if there is none. This is a precondition, not modelled behaviour.
- `Service.LunchServer.RecordVote`: the handler returns nothing on success. The model returns the stored poll.
- The BoltDB store wraps a database and JSON encoding that are not part of this model. It also serialises the poll before stamping its identifier, so it does not behave exactly like the map store. Only the map store's contract is modelled.
- The wall-clock ISO week is an input: `CurrentKey` takes the week number, in 1..53.
- The map store's read/write lock is concurrency. The model is sequential, with one operation at a time.
- `Store.MapStore.Store` returns the poll only, because the map store's error result is always nil. Persistence errors are not modelled.
- Process startup, configuration and logging (`main`) are out of scope.
