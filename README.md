# Anonymous chat matchmaking, verified model

This project models the matchmaking core of the chat server in `server.js`
(lines 9-116). It covers three parts of the server's state:

- a registry `users` that maps each socket id to its current user record;
- a waiting `queue` of user records;
- symmetric `partner` links between records.

The socket.io handlers update this state in place. The model has one method
for each of them:

- connection and `set-code`;
- `find-partner`, with `matchUsers`;
- `send-message` and `typing`;
- `skip-partner`;
- `disconnect`.

Every `socket.emit` becomes one `(socket id, event)` entry appended to an
outbox. `SentTo(outbox, s)` is the sequence of events socket `s` has
received, so statements like "the partner is told exactly once" are
statements about `SentTo`.

The files are:

- `protocol.dfy` (module `Protocol`): socket ids, codes, the emitted events
  and the outbox. It also has `SentTo` and two lemmas for appending to the
  outbox.
- `seqs.dfy` (module `Seqs`): the array operations the server uses.
  `Without` is `splice(i, 1)` and `IndexOf` is `indexOf`, which compares
  records by identity.
- `matchmaking.dfy` (module `Matchmaking`):
  - The class `User` is one record `{ id, socket, gender, partner }`. The
    socket is represented by its id `sid`, and the `id` by `code`.
  - The class `Server` holds `users`, the Map's key insertion order `order`,
    the `queue`, the `outbox` and a ghost footprint `Repr`.
  - The handlers are methods. The two `find` calls and the `findIndex` call
    are loops (`Find`, `FindIndexOfSocket`), each proved equal to a
    recursive specification function (`FirstWanted`, `IndexOf`).
  - `Choose` states which branch `find-partner` takes from a given state.
    `FindPartner` is proved against it.
- `scenarios.dfy` (module `Scenarios`): event sequences with two sockets
  "X" (code "alpha") and "Y" (code "beta"). Each scenario calls the handler
  methods in turn, and its `ensures` state what each socket receives.

The model follows `server.js` as written. Object identity is kept
throughout. `set-code` stores a new record object, and queue entries and
partner links that point at the old record keep doing so.

The code behaves in these ways that a reader might not expect:

- A direct search for a code that nobody has (or whose holder is paired)
  falls through to random matching. The requester may then be queued.
- `find-partner` does not take the requester out of the queue first.
- The queue has no duplicate protection: `skip-partner` pushes even when
  the skipper is already queued. `disconnect` removes only the first entry
  of the socket, so a later random search can pair with a departed socket
  (`Scenarios.PairedWithDepartedSocket`).
- A direct match leaves its target in the queue. A record can then be
  queued and paired at the same time (`Scenarios.DirectMatchKeepsTargetQueued`).
  The `!u.partner` filter is what skips such entries later.
- `find-partner` clears only the requester's own link. A former partner
  keeps pointing at the requester.

## Model

| member | source | states |
|---|---|---|
| Seqs.Without | server.js:48 | `splice(i, 1)` leaves one element fewer, and every other element keeps its relative order |
| Seqs.WithoutMultiset | server.js:89 | splicing takes out exactly one occurrence of the spliced element |
| Seqs.IndexOf | server.js:48 | `indexOf` returns the first position holding the value, or -1 exactly when the value is absent |
| Seqs.WithoutNoDup | server.js:97 | deleting one key from the Map's insertion order keeps the keys distinct and removes exactly that key |
| Matchmaking.User.constructor | server.js:14 | a new record carries its socket and code, with gender "" and no partner |
| Protocol.Truthy | server.js:32 | `if (searchCode)` holds exactly for a present, non-empty code |
| Matchmaking.Wanted | server.js:34 | the search filter: a record of another socket, without a partner, and carrying the code when one is given; with no code it is the queue filter of server.js:44 |
| Matchmaking.Introductions | server.js:105-115 | the two `partner-found` emits of `matchUsers`: to each side, the other side's socket id, gender and code |
| Matchmaking.FirstWanted | server.js:33-35 | the position of the first record of another socket, without a partner and with the requested code; -1 exactly when there is none |
| Matchmaking.Find | server.js:43-45 | the linear `find` scan returns the first wanted entry, as `FirstWanted` defines it |
| Matchmaking.FindIndexOfSocket | server.js:88 | the linear `findIndex` scan returns the first queue position of the socket, or -1 |
| Matchmaking.RemoveFirstOfSocket | server.js:87-89 | the disconnect splice removes exactly one of the socket's queue entries, so any further entries stay |
| Matchmaking.IntroductionsReachBoth | server.js:105-115 | `matchUsers` sends each side exactly one `partner-found` with the other side's socket id, gender and code, and sends nothing to anybody else |
| Matchmaking.SkipNotices | server.js:77-80 | a skip with a partner sends the partner exactly one `partner-disconnected` and the skipper exactly one status, and nothing to anybody else |
| Matchmaking.Server.constructor | server.js:9-10 | the server starts with an empty registry, an empty queue and nothing emitted |
| Matchmaking.Server.Values | server.js:33 | `Array.from(users.values())` lists the current records in key insertion order |
| Matchmaking.Server.ValuesComplete | server.js:33 | every registered record is among `Array.from(users.values())` |
| Matchmaking.Server.DirectIsFirstInOrder | server.js:33-35 | a direct match is with the earliest wanted record in the Map's insertion order |
| Matchmaking.Server.Choose | server.js:31-53 | a direct match only with a registered, wanted record when a code is given; otherwise no registered record is wanted, and the first wanted queue entry is chosen, or waiting when there is none |
| Matchmaking.Server.Register | server.js:12-21 | connection and `set-code` store a fresh record for the socket, keep the Map's insertion order, leave the queue alone and emit `your-code` to the socket |
| Matchmaking.Server.MatchUsers | server.js:101-116 | the two records are linked both ways and the two introductions are appended |
| Matchmaking.Server.FindPartner | server.js:24-54 | an unknown socket changes nothing. Otherwise the gender is stored and then, as `Choose` decides: a direct match leaves the queue untouched; a queue match splices out exactly the chosen entry; waiting appends the requester and emits one status. Only the two matched records' links change |
| Matchmaking.Server.ResetRequester | server.js:25-29 | storing the gender and clearing the requester's own link does not change the branch `find-partner` takes |
| Matchmaking.Server.Pair | server.js:31-53 | the search carries out the branch that `Choose` names |
| Matchmaking.Server.MatchFromQueue | server.js:42-53 | the first wanted queue entry is spliced out and matched; with none, the requester is queued and told it is searching, and no link changes |
| Matchmaking.Server.TakeFromQueue | server.js:47-49 | `indexOf` finds the entry `find` returned, which is spliced out, and the two records are matched |
| Matchmaking.Server.Enqueue | server.js:50-52 | the requester is appended to the queue and sent one status |
| Matchmaking.Server.Splice | server.js:48 | the queue loses exactly the entry at the index |
| Matchmaking.Server.ForwardToPartner | server.js:57-59 | exactly one event goes to the partner when the sender is registered and has one; otherwise nothing is emitted |
| Matchmaking.Server.SendMessage | server.js:56-61 | only the sender's partner receives the message, exactly once; every other socket's log is unchanged |
| Matchmaking.Server.SetTyping | server.js:63-68 | only the sender's partner receives the typing flag, exactly once; every other socket's log is unchanged |
| Matchmaking.Server.SkipPartner | server.js:70-81 | both links are cleared, the former partner is told once, the skipper is queued unconditionally and sent one status, and no other link changes |
| Matchmaking.Server.Disconnect | server.js:83-98 | an unknown socket changes nothing. Otherwise at most the socket's first queue entry goes, the partner is told once and unlinked, and the socket leaves the registry and its order |
| Matchmaking.Server.RemoveFirstEntry | server.js:87-89 | the queue loses the socket's first entry, or stays as it is when the socket has none |
| Matchmaking.Server.Unregister | server.js:97 | `users.delete` removes the key from the Map and from its insertion order |
| Scenarios.Connected | server.js:12-16 | two connections each receive their own code |
| Scenarios.XWaiting | server.js:50-52 | with an empty queue a random search queues the requester |
| Scenarios.RandomlyPaired | server.js:43-49 | a second random search takes the waiting record out of the queue and pairs with it |
| Scenarios.DirectlyPairedWhileQueued | server.js:32-39 | a direct match pairs with a queued record and leaves it in the queue |
| Scenarios.DirectlyPaired | server.js:32-39 | a code search pairs with the idle holder of the code |
| Scenarios.UnknownCodeQueued | server.js:32-52 | a code nobody has falls through to the empty queue, and the requester waits |
| Scenarios.XLeftMidSession | server.js:83-98 | a disconnect mid-session unlinks and notifies the partner |
| Scenarios.YSkipped | server.js:70-81 | a skip mid-session unlinks both, tells the partner, and queues the skipper |
| Scenarios.Recoded | server.js:18-21 | `set-code` replaces the registered record, while the queue still holds the old one |
| Scenarios.PairedWithReplaced | server.js:43-49 | a random search pairs with the replaced record, not the registered one |
| Scenarios.XQueuedTwice | server.js:79 | two skips without a partner queue the same record twice |
| Scenarios.XLeftOnceQueued | server.js:87-89 | a disconnect removes only one of the two entries |
| Scenarios.PairedWithDeparted | server.js:43-49 | a random search pairs with the entry left behind by a departed socket |
| Scenarios.RandomPairing | server.js:42-53 | the first requester receives its code, one searching status and one introduction; the second receives its code and one introduction; each introduction carries the other side's gender and code, and the queue ends empty |
| Scenarios.DirectPairing | server.js:31-39 | a direct pairing introduces both sides once and leaves the queue empty |
| Scenarios.DirectMatchKeepsTargetQueued | server.js:36-39 | after a direct match the target is both queued and paired |
| Scenarios.UnknownCodeWaits | server.js:32-52 | a search for an unknown code ends with the requester queued and told once that it is searching |
| Scenarios.DisconnectMidSession | server.js:83-98 | the remaining partner receives `partner-disconnected` exactly once, only it stays registered, and it is unlinked |
| Scenarios.SkipMidSession | server.js:70-81 | the former partner is told exactly once, and the skipper is queued and told once that it is searching again |
| Scenarios.ReplacedRecordPaired | server.js:18-19 | after `set-code`, a message from the re-coded socket goes nowhere, while its stale partner's messages still reach it |
| Scenarios.PairedWithDepartedSocket | server.js:79-89 | a socket queued twice leaves one entry behind on disconnect, and a later search pairs with that departed socket |

## Left out

- The HTTP server, static file serving and `listen` (server.js:1-7, 123-126) are I/O plumbing.
- The socket.io transport is not modelled. Handlers are methods, and each `emit` is an outbox entry. An emit to a socket that has already closed is still recorded, although socket.io would drop it.
- `uuidv4()` (server.js:13) is not modelled. The fresh id is a parameter of `Register`.
- `clearChat` (server.js:117-120) refers to browser DOM objects that do not exist on the server, and nothing calls it.
- `public/script.js` is not part of this model. It is the browser client: rendering, media, WebRTC and timers.
- `models/User.js` is not part of this model. It is a database schema declaration with no logic.
- Call signalling and friend events have no handlers in `server.js`, so there is no behaviour to model.
- Client payloads are typed. `gender` is an optional string (`None` when the client omits it), the typing flag is a `bool`, and messages are strings. A missing `find-partner` payload, which makes the destructuring throw, is not modelled.
- Matchmaking.Server.SkipPartner: requires the socket to be registered. Every socket that delivers events is registered from connection until `disconnect`, so the source's push of `undefined` for an unregistered socket is not modelled.
