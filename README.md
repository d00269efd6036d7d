# Real-time dashboard simulator: a verified model

The server keeps two pieces of simulated state and pushes them to every
connected websocket client:

- an **online-users counter**. Each tick adds a random change in [-15, 20]
  and clamps the result to [200, 2000];
- an **earnings ranking** of `{id, name, amount}` entries. On each tick, some
  entries get a random change in [-500, 1000], with the amount floored at 1000.
  A new entrant may then be pushed with id "length + 1" and an amount in
  [2000, 15000]. The list is then sorted by amount, highest first, with a
  stable sort, and cut to its first ten entries.

Clients are kept in a registry (a JavaScript `Set`). A broadcast goes to each
registered client whose `readyState` is `OPEN`. A new client is registered,
then gets the count snapshot and then the earnings snapshot. A closed client is
unregistered.

The model has four modules, one per component:

- `OnlineUsers` (users.dfy): the clamp and one counter step.
- `Earnings` (earnings.dfy): the four steps of the earnings tick, as pure
  functions, with lemmas about the whole tick.
- `Connections` (connections.dfy): the `Socket` class with its `readyState`,
  `Set` add and delete, and the choice of recipients for a broadcast. The
  `Set` is modelled as a sequence without repetitions, because a JavaScript
  `Set` iterates in insertion order.
- `Server` (server.dfy): the class `ServerState`. Its fields are the
  server's module-level variables. It has one method per handler.

Every random draw is a parameter, with the draw's range as a precondition:

- the user change;
- one `EntryDraw` per entry (`Keep` or `Adjust(change)`);
- one `AppendDraw` (`NoEntrant` or `Entrant(name, amount)`).

A broadcast returns the list of `send` calls it makes, as `Delivery(to, msg)`
values. `Received(sends, c)` is the sequence of messages that client `c` gets.

Three behaviours of `server.js` the model keeps as written:

- The initial ranking (server.js:14-22) is not sorted: entry 5 (6000) comes
  before entry 6 (10000). So the ranking is sorted only after the first
  earnings tick. `ServerState.Valid()` always requires at most ten entries, but
  requires sortedness only once the ghost flag `ranked` is set.
- The id of a new entrant is the list length plus one. This id can repeat one
  already in the list, so ids are not unique. Once the list is full, every
  entrant gets id 11, and an id-11 entry kept from an earlier tick then shares
  its id with the next entrant (`EntrantIdRepeatsOnFullList`, `EntrantIdMayRepeat`).
- The only filter on a send is `readyState === OPEN`. No error from `send` is
  caught. A client stays registered until its close event arrives.

## Model

| member | source | states |
|---|---|---|
| `OnlineUsers.Clamp` | server.js:45 | The result is in [200, 2000]. It equals the input when the input is in range, and otherwise the nearer bound. |
| `OnlineUsers.Step` | server.js:43-45 | After a tick with any integer change, the count is in [200, 2000]. It equals prior + change exactly when that sum is in range. |
| `OnlineUsers.StepAtBounds` | server.js:44-45 | 200 with change -15 stays 200; 2000 with change +20 stays 2000. |
| `Earnings.UpdateEntry` | server.js:53-62 | An adjusted entry keeps its id and name. Its amount becomes max(1000, amount + change). An entry drawn `Keep` is returned unchanged. |
| `Earnings.UpdateAll` | server.js:53-62 | The map keeps the length. Position i of the result is entry i updated under draw i. |
| `Earnings.UpdateAllKeepsFloor` | server.js:53-62 | If every amount was at least 1000 before the map, every amount is at least 1000 after it. |
| `Earnings.Pushed` | server.js:65-72 | With no entrant the list is unchanged. Otherwise the old list is a prefix and the new last entry has id = old length + 1 and the drawn name and amount. |
| `Earnings.Insert` | server.js:75 | Inserting into a sorted list gives a sorted list with that one entry added. |
| `Earnings.SortByAmount` | server.js:75 | The result is sorted with amounts non-increasing and is a permutation (same multiset) of the input. |
| `Earnings.SortStable` | server.js:75 | The sort is stable. For every amount, the entries with that amount keep their input order. |
| `Earnings.SortedUnique` | server.js:75 | Two sorted lists that agree on the order within every amount are equal. |
| `Earnings.SortIsTheStableSort` | server.js:75 | Any sorted list that keeps the input's order within every amount is exactly `SortByAmount` of the input. So the function is the one result a stable sort with this comparator can give. |
| `Earnings.Truncate` | server.js:76-78 | The result is the first min(n, 10) entries of its input, and a sub-multiset of it. |
| `Earnings.Tick` | server.js:51-78 | After an earnings tick the list is sorted by amount, highest first. Its length is min(n + appended, 10), where appended is 0 or 1. |
| `Earnings.TickKeepsFloor` | server.js:53-72 | If every amount was at least 1000 before the tick and the entrant's amount is in [2000, 15000], every amount is at least 1000 after the tick. |
| `Earnings.TickKeepsTop` | server.js:75-78 | The result is a sub-multiset of the updated list plus the entrant. Every dropped entry's amount is at most every kept entry's amount. |
| `Earnings.SortedPrefixIsTop` | server.js:75-78 | In a sorted list, every entry after a prefix has an amount no greater than any entry in the prefix. |
| `Earnings.TickDropsOnlyOverflow` | server.js:76-78 | When the updated list plus the entrant has at most ten entries, the tick only reorders it. |
| `Earnings.TickEntrant` | server.js:65-71 | A new entrant gets id = length before the push + 1. It survives the tick whenever the list held fewer than ten entries. |
| `Earnings.TickKeepsOutranking` | server.js:75-78 | While a tick drops at most one entry, any staged entry that outranks another staged entry is kept. |
| `Earnings.EntrantIdRepeatsOnFullList` | server.js:65-78 | On a full list of ten, the entrant gets id 11. An id-11 entry already in the list and the entrant both survive the tick when each outranks some other entry, so two kept entries share id 11. |
| `Earnings.EntrantIdMayRepeat` | server.js:65-78 | A concrete full, descending ten-entry ranking headed by an earlier id-11 entrant, ticked with no adjustments and an entrant of 14000: both id-11 entries are kept. |
| `Connections.Added` | server.js:114 | `Set.add` keeps the old clients in place. It makes the new client a member, adds no other client, and keeps the registry free of repeats. |
| `Connections.Removed` | server.js:120-122 | `Set.delete` removes the closed client and keeps every other client. It adds no client and keeps the registry free of repeats. |
| `Connections.RemovedKeepsOrder` | server.js:121 | Deleting an absent client leaves the registry unchanged. Deleting a present client cuts it out of its place: the others keep their order. |
| `Connections.Sends` | server.js:104-110 | A broadcast makes at most one send per registered client. |
| `Connections.SendsExactlyOpen` | server.js:104-110 | Every registered `Open` client gets the message. Every send goes to a registered `Open` client and carries the broadcast message. |
| `Connections.ReceivedFromSends` | server.js:104-110 | Through one broadcast, a registered `Open` client receives the message exactly once. Every other client receives nothing. |
| `Connections.ReceivedFromTwoBroadcasts` | server.js:116-118 | Through two broadcasts in a row, a registered `Open` client receives both messages in broadcast order. |
| `Connections.RemovedReceivesNothing` | server.js:120-122 | Once a client is deleted from the registry, it receives nothing from a broadcast. |
| `Server.InitialEarningsShape` | server.js:14-22 | The initial ranking has at most ten entries, all at least 1000. It is not sorted. |
| `Server.ServerState.constructor` | server.js:10-22 | The count starts at 200 and the ranking starts as the seven initial entries. No client is registered. The invariant holds, including the bound of ten entries. |
| `Server.ServerState.BroadcastToClients` | server.js:104-110 | The loop sends the message to exactly the registered clients whose state is `Open`, in registry order. |
| `Server.ServerState.BroadcastOnlineUsers` | server.js:85-92 | Broadcasts the current count. |
| `Server.ServerState.BroadcastEarningsData` | server.js:94-102 | Broadcasts the current ranking with the title "Today's earnings chart". |
| `Server.ServerState.UpdateUserCount` | server.js:42-48 | The new count is `Step(old count, change)`. The invariant holds, so the count stays in [200, 2000]. The new count is then broadcast. |
| `Server.ServerState.UpdateEarningsData` | server.js:51-82 | The new ranking is `Tick(old ranking, draws, entrant)`. The invariant holds: amounts are at least 1000, the list is sorted, and it has at most ten entries. The new ranking is then broadcast. |
| `Server.ServerState.Start` | server.js:125-127 | The first count tick runs, then the first earnings tick. From then on the ranking is sorted. |
| `Server.ServerState.OnConnection` | server.js:113-119 | The new client is registered before anything is sent. An `Open` new client then receives the count snapshot and then the earnings snapshot. |
| `Server.ServerState.OnClose` | server.js:120-122 | The closed client is removed from the registry. No other state changes. |
| `Server.DisconnectScenario` | server.js:113-122 | A client that connects with an open socket receives the count snapshot and then the earnings snapshot. Once its close handler has unregistered it, it receives nothing from the next count tick and earnings tick, although its socket is still open. |

## Left out

- HTTP and websocket server construction, `server.listen` and the startup log lines: these are I/O and third-party libraries.
- `setTimeout` rescheduling and the random delays (500-3000 ms and 5000-15000 ms): these are timer scheduling. Each tick is a method that runs once.
- `Math.random` and the 0.7 and 0.9 thresholds: the model replaces them with the draw parameters above, so any combination of draws is admitted.
- The synthetic `User****…` name: it comes from a float-to-base-36 conversion. The name is an opaque parameter of the `Entrant` draw.
- `JSON.stringify` and the ISO-8601 timestamp, which comes from the wall clock: messages are modelled without a timestamp. So two broadcasts of the same state carry equal messages by construction.
- The transport write inside `client.send`, and changes to a client's `readyState`: the transport makes these. The model only records which client gets which message.
- Number width: JavaScript numbers are doubles. Counts and amounts stay small integers here, so they are modelled as unbounded integers.
- `Connections.Sends`: its own contract bounds only the number of sends. Which clients are reached is stated by `SendsExactlyOpen` and `ReceivedFromSends`.
