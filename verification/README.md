# Verified models of the relay, the route agent and the deployment tools

This project models five parts of the repository in Dafny and proves properties of them:

- **The hybrid DERP relay** (`relay-vpn5/`): frame codec, buffered writers shared by many goroutines, client
  registry, FIFO from a connection to another, session table with its sockets, endpoint cache. The concurrent parts
  are transition systems (`Wire`, `Sockets`, `Relay`, `Endpoints.Cache`): a step's label fixes what the environment
  chooses, the step function is what the program does, and the theorems speak about every run, that is every
  interleaving of any number of connections, sessions and goroutines. The same objects appear once more as classes
  whose methods are written like the source's (`ClientConns`, `SessionTables`, `Endpoints.EndpointCache`,
  `Frames.ReadFrame`).
- **The route agent** (`vpn-gw/route-agent.sh`): one timer tick as a method on the state files, and whole runs.
- **The key-preserving configuration pipeline** (`cliproxy/`): the printer of the key list against the independent
  scanner that reads it back, the deploy / seed / verify / rollback procedure over a file, a spool and a database,
  and the edit that switches a plugin on.
- **The Caddy block replacer** (`beszel/caddy_block.py`).
- **The node de-duplication planner** (`node-dedup/dedup.py`).

A specification function says what a loop or a step computes; what that amounts to is said once more without it, over
whole runs or over the look of texts: `RelayHandshake`, `RelayRouting`, `RelayReplies`, `RelayAddresses` and
`RelayControl` for the relay, `RouteDecisions` for a tick, `KeyForms`, `KeyBlocks` and `JsonStrings` for the scanner,
`TemplateText` for the renderer, `PluginEdit`, `CaddyText` and `DedupRules` for the other tools.

Bytes are numbers below 256, integers are unbounded except where the source's width matters (the frame length field,
the shell's 64-bit comparison). Text is a sequence of characters; splitting at line breaks and stripping blanks follow
Python's `str` methods. `dafny verify dfyconfig.toml` checks the whole project.

## Where the code and its own texts disagree

The models follow the code. Each of these is a proved statement, not a remark:

- Deferred cleanup of an older handler removes the registry entry of a newer connection with the same key
  (`relay-vpn5/server.go:174-180`). A served connection need not be routed to: `RelayEviction.EvictedWhileServed`
  reaches such a state from the start, and `RelayTheorems.RoutedIffLastJoined` says exactly when it is.
- `cliproxy/pgstore-seed.sh:112` says that after a failed token transaction the next run seeds again. The config row
  is already written by then, so the next run finds nothing to seed: `SeedStore.TokensAreLost`, and
  `SeedStore.RetryAfterFailure` for every way in which a seed fails.
- `cliproxy/pgstore-seed.sh:87-90` says that a missing config row is always seeded. The read that looks for it stands
  in a condition, where a failed query counts as a row, and the script still ends well: the last clause but one of
  `SeedStore.SeedOnlyFillsGaps`.
- `cliproxy/pgstore.sh:21-22` says that a rollback only deletes data this run seeded. If the config row was missing
  but token rows existed, the reset deletes those too: `SeedStore.ResetUndoesSeed`, `Deploy.Host.Run`.
- A key with a blank at either end, or with a line break, does not survive the file of keys to keep:
  `ClientKeys.KeyIsKept`, and `KeyRoundTrip.BlankKeyExample` for a key the scanner does find.
- The agent is meant to change its routes at most a few times an hour and then to lock itself. Only withdrawals can
  lock it, and only advertisements keep the hold time, so this depends on whether a list that was written is recognised
  on the node: preferences readable, no route listed twice, all routes IPv4 (`RouteAgents.CurrentIffReadsBack`).
  With preferences readable at every tick, or at none, the bound holds exactly when the list is recognised or the hold
  time alone keeps changes far enough apart (`RouteBounds.SteadyBoundIff`). With preferences readable at some ticks
  only, recognition does not help but hurts, and the hold time decides (`RouteBounds.BoundIff`); there are settings
  under which the two steady cases keep the bound and an alternation breaks it (`RouteBounds.AlternatingPreferences`).
  With the script's own settings the bound holds only while the preferences can be read at every tick
  (`RouteBounds.DefaultBound`). Recognition also decides whether failing probes withdraw the routes:
  `RouteAgents.BoundedReaction`.
- `cliproxy/render-config.py:64` says that the block of keys is replaced. If the template ends in an empty line outside
  the lists that is closed by another break than a newline, that line goes too, and nothing else outside ever does:
  `KeyRoundTrip.OutsideUnchanged`, `KeyRoundTrip.LastLineExample`.

## Model

| member | source | states |
|---|---|---|
| Frames.ParseEncode | relay-vpn5/frame.go:37-68 | what one write puts on a stream is read back as that frame and the rest, if and only if its payload is within the limit |
| Frames.ParseCanonical | relay-vpn5/frame.go:37-52 | whatever is accepted is the encoding of the frame returned, followed by the unread rest |
| Frames.ParseTruncated | relay-vpn5/frame.go:37-52 | a strict prefix of one encoding is never accepted |
| Frames.DecodeConcat | relay-vpn5/frame.go:37-68 | reading encodings followed by anything yields those frames and then what the rest yields |
| Frames.RoundTrip | relay-vpn5/frame.go:37-68 | any concatenation of encodings within the limit is read back as exactly those frames and a clean end |
| Frames.WholeIsMaximal | relay-vpn5/frame.go:37-52 | a cut stream contains as many whole frames as counted and not one more |
| Frames.TruncatedStream | relay-vpn5/frame.go:37-52 | reading a stream cut anywhere yields the frames that are whole in it and then an end-of-input error, never a wrong frame |
| Frames.SizeClosure | relay-vpn5/server.go:50-55 | every SendPacket frame that is accepted, and every UDP datagram within the length field of RFC 768, becomes a RecvPacket frame within the limit, and the datagram fits the read buffer |
| Frames.BytesOfFrame | relay-vpn5/frame.go:56-68 | the bytes of a frame: the kind, the length with its most significant byte first, the payload |
| Frames.Stream.ReadFull | relay-vpn5/frame.go:39-41 | the buffer is filled with the next bytes, or everything is consumed and an empty stream is told from a partial read |
| Frames.ReadFrame | relay-vpn5/frame.go:37-52 | the buffer-filling reader agrees with the parser in frame and error, and leaves unread what the parser leaves: on an oversized length everything after the header, on a short input nothing |
| Wire.InvStep | relay-vpn5/server.go:38-46 | every step of every goroutine keeps: only the lock holder is inside writeFrame, and what went out plus what is buffered is the log in lock order |
| Wire.WirePrefix | relay-vpn5/server.go:38-46 | at any moment a connection carries a prefix of its frames in lock order, and all of them when it is quiet and has not failed |
| Wire.FarSideReads | relay-vpn5/server.go:38-46 | the far side reads exactly the first m frames in lock order, m is as large as the bytes allow, and never meets a malformed length |
| Wire.WireIntegrity | relay-vpn5/server.go:38-46 | the two statements above, in full, after every run of any number of sendFrame calls on any number of clients, with failures that stick |
| ClientConns.FillHeader | relay-vpn5/frame.go:57-59 | the five bytes filled in place are the header: kind and big-endian length |
| ClientConns.WriteFrame | relay-vpn5/frame.go:56-68 | after it the writer has taken header and payload, or has failed for good after a prefix of them |
| ClientConns.ClientConn.SendFrame | relay-vpn5/server.go:38-46 | on success exactly the encoding is appended to the connection; on failure a prefix of it, the failure sticks, and later calls emit nothing |
| ClientConns.ClientConn.SendRecvPacket | relay-vpn5/server.go:48-55 | the frame sent is the sender's key followed by the packet, byte by byte |
| Sockets.TableStep | relay-vpn5/session.go:63-174 | each locked section and each close keeps: one entry per pair, open sockets are those in the table plus those unlinked and not yet closed by one thread |
| Sockets.SocketConservation | relay-vpn5/session.go:71-174 | socket conservation after every interleaving of GetOrCreate, Remove and RemoveAll; no socket has two entries or is closed twice; when all closers are done the open sockets are exactly the table's |
| SessionTables.SessionTable.GetOrCreate | relay-vpn5/session.go:63-105 | an existing session is returned with the new address and nothing else changes; otherwise a fresh one is filed, or none when no socket could be opened |
| SessionTables.SessionTable.Remove | relay-vpn5/session.go:142-155 | exactly the entry of the pair goes and exactly its socket is closed, once |
| SessionTables.CloseAll | relay-vpn5/session.go:168-170 | each session of the list is closed once |
| SessionTables.SessionTable.TakeAll | relay-vpn5/session.go:159-167 | under the lock the entries of a source leave the map and are collected, each once |
| SessionTables.SessionTable.RemoveAll | relay-vpn5/session.go:157-174 | exactly the entries of a source go and each of their sockets is closed once |
| RelayInv.InputStep | relay-vpn5/server.go:186-219 | reading, the 32-slot channel and taking from it keep: bytes consumed are the encodings of the frames read, and those not yet taken wait in order |
| RelayCalls.BasicStep | relay-vpn5/server.go:118-302 | every step of the relay keeps the basic invariant and takes nothing back (frames read, datagrams got, verified keys, session keys) |
| RelayTheorems.InvariantHolds | relay-vpn5/server.go:118-302 | the whole invariant after every run |
| RelayTheorems.DeliveredPrefix | relay-vpn5/server.go:38-46 | in the whole relay, what a client can read is exactly the first frames in lock order |
| RelayTheorems.FifoRelay | relay-vpn5/server.go:186-274 | among the frames delivered to a connection, those relayed from a source connection are its own SendPacket frames for that key, tagged with its verified key, with the data unchanged and in the order sent |
| RelayTheorems.RelayedOnce | relay-vpn5/server.go:263-302 | no frame is relayed twice, over all destinations and over both the local and the UDP path; datagrams sent on a session's socket hold the packets for its key, in order |
| RelayTheorems.EveryPacketHasASource | relay-vpn5/server.go:48-55 | every RecvPacket frame a client has been able to read is a packet relayed to it or a reply to it; the program sends no other |
| RelayTheorems.ReplyAttribution | relay-vpn5/session.go:107-140 | a frame injected by a read loop goes to a connection of the session's source, carries the session's destination as its source and holds exactly one datagram, whole, from the filtered IP; datagrams keep their order |
| RelayTheorems.FilterFixed | relay-vpn5/session.go:111 | the filter is the session's address at the moment its loop starts and stays that, whatever roams or is removed |
| RelayTheorems.Ownership | relay-vpn5/server.go:167-180 | each registry entry is a handshaken connection for its key whose handler has not deregistered; once no handler of a source has its RemoveAll before it, no session of that source is in the table |
| RelayTheorems.Untouched | relay-vpn5/server.go:167-180 | without a registration or deregistration for a key its entry does not change |
| RelayTheorems.RoutedIffLastJoined | relay-vpn5/server.go:167-180 | a connection is the one routed to exactly when the last registry write for its key is its own registration |
| RelayHandshake.KeyIffProven | relay-vpn5/server.go:134-155 | a connection has a key if and only if the run contains the step in which its handler reads a ClientInfo frame of the connection whose first 32 bytes are that key and whose box opens |
| RelayHandshake.StrangersGetNothing | relay-vpn5/server.go:134-180 | a connection without such a step is in no registry entry, has no reply loop, and is the source of no frame in any log, none at a lock, and no datagram |
| RelayHandshake.SessionsAreProven | relay-vpn5/session.go:63-105 | every session in the table has a source key that some connection has proved in this way |
| RelayRouting.EveryPacketIsHandled | relay-vpn5/server.go:210-302 | every SendPacket frame taken from the channel is about to be looked up, or was looked up while a connection was registered for its destination and is at the lock or in the log of just that one, or was looked up while none was and then is on the UDP path, was sent as a datagram, or was given up because no endpoint, no socket or no write could be had |
| RelayRouting.SentIffFound | relay-vpn5/server.go:263-274 | a packet is at the lock or in the log of a connection if and only if that one was registered for its destination when the packet was looked up |
| RelayAddresses.OnlyResolvedAddresses | relay-vpn5/server.go:276-302 | the address of every session, and of every datagram ever sent, is one that the endpoint cache gave for the destination key |
| RelayControl.PingsAreAnswered | relay-vpn5/server.go:235-239 | the answers logged for a connection, with the one its handler may have at the lock, are the payloads of the 8-byte pings taken from it, each once and in order |
| RelayControl.GreetingFirst | relay-vpn5/server.go:119-163 | what a client reads begins with the server key behind the magic, then the server information; packets come after those |
| RelayReplies.InjectedIffFromFilter | relay-vpn5/session.go:107-140 | a datagram a session has received is injected into a connection if and only if that is the one the session was created for and the datagram comes from the filtered address |
| RelayEviction.EvictedWhileServed | relay-vpn5/server.go:174-180 | two handshakes under one key and the end of the first handler lead from the start to a state in which the second connection is served and its key has no registry entry |
| Endpoints.StoreReflects | relay-vpn5/endpoint.go:127-137 | after a stored snapshot the cache is that snapshot |
| Endpoints.InvalidateReflects | relay-vpn5/endpoint.go:85-91 | an invalidation removes one key from what is visible and nothing else |
| Endpoints.CStepKeeps | relay-vpn5/endpoint.go:85-137 | every step of lookups, refreshes and invalidations keeps the cache equal to the last stored snapshot minus the keys invalidated since |
| Endpoints.CacheRefines | relay-vpn5/endpoint.go:85-137 | after every interleaving: the cache is the last snapshot minus later invalidations; a lookup answers with what was visible at one moment after it began, at once exactly when the map was fresh and held the key at that time, and after asking the sidecar exactly when not |
| Endpoints.InvalidatedStaysAway | relay-vpn5/endpoint.go:85-91 | an entry invalidated before a lookup began is in its answer only if a snapshot was stored since |
| Endpoints.EndpointCache.Invalidate | relay-vpn5/endpoint.go:85-91 | the key is invalidated, the time of the last refresh is kept |
| Endpoints.EndpointCache.Refresh | relay-vpn5/endpoint.go:127-137 | that the sidecar was asked is on record either way; a successful status replaces the map and its time, a failed one leaves both |
| Endpoints.EndpointCache.GetPeer | relay-vpn5/endpoint.go:109-125 | the answer is what is visible at the end; the sidecar is asked exactly when the entry is missing or the map is not fresh, and the history and the refresh time say so whether or not it answers |
| Endpoints.EndpointCache.Resolve | relay-vpn5/endpoint.go:40-76 | the active direct address if there is one, else the first candidate that is neither loopback, private nor unspecified, else nothing |
| RouteFilter.FilterRoutes | vpn-gw/route-agent.sh:72-86 | the loop yields exactly the filtered list |
| RouteFilter.OnlySafe | vpn-gw/route-agent.sh:72-86 | whatever passes the filter is a prefix of /24 or longer |
| RouteFilter.PrefixDecides | vpn-gw/route-agent.sh:72-86 | an address with a prefix length passes if and only if that is 24 or more; one without becomes a /32 |
| RouteFilter.BlanksDoNotCount | vpn-gw/route-agent.sh:72-86 | blanks in a field change nothing, wherever they stand |
| RouteFilter.FieldByField | vpn-gw/route-agent.sh:72-86 | the fields between commas are filtered one by one and keep their order |
| RouteAgents.RouteAgent.Tick | vpn-gw/route-agent.sh:98-168 | the script on its state files does what the tick function says, on every branch, and asks the tailnet client for exactly the routes the function names; under an empty list with a visible route it asks for the routes to be taken back and stores the time |
| RouteAgents.RouteAgent.TickFrom | vpn-gw/route-agent.sh:55-86 | the dashboard's list, even an empty one, wins over the environment's, and passes the filter first |
| RouteAgents.RouteAgent.Prune | vpn-gw/route-agent.sh:114-118 | exactly the entries later than the cut stay, in order |
| RouteAgents.StreakMeaning | vpn-gw/route-agent.sh:98-100 | a streak of at least k means that the last k probes came out that way |
| RouteAgents.CountersAgree | vpn-gw/route-agent.sh:98-100 | after every run the stored counters are the OK and fail streaks of the probe history and the stored time is that of the last change, whichever branches were taken |
| RouteAgents.AdvertiseOnlyWhenHealthy | vpn-gw/route-agent.sh:154-166 | in every run, a tick that asks for routes, whether or not the node has them already or the request works, ends a long enough OK streak, keeps the hold time since the last change, is unlocked and asks for the wanted list |
| RouteAgents.AdvertisesOnlySafe | vpn-gw/route-agent.sh:72-86 | what a tick asks for contains only prefixes of /24 or longer |
| RouteAgents.LockedIsWithdrawn | vpn-gw/route-agent.sh:127-152 | in every run, while the lock exists the node advertises nothing, however the wanted list changes |
| RouteAgents.CurrentIffReadsBack | vpn-gw/route-agent.sh:106-110 | a list just written is recognised on the node exactly when the preferences can be read, no route is listed twice and every route is IPv4 |
| RouteAgents.CurrentMeansEqual | vpn-gw/route-agent.sh:106-110 | nothing but the wanted routes is taken for the wanted list |
| RouteAgents.BoundedReaction | vpn-gw/route-agent.sh:140-152 | at a tick that completes enough failures and can apply, the advertised wanted list is withdrawn if and only if it is recognised on the node |
| RouteDecisions.EmptyListWithdraws | vpn-gw/route-agent.sh:124-133 | in every run, a tick under an empty list asks for the routes to be taken back if and only if the preferences show one, whatever probes, hold time and lock say; then its time is stored and, if the request works, the node is empty; otherwise it asks for nothing and node, time and state stay |
| RouteDecisions.TickDecides | vpn-gw/route-agent.sh:127-166 | in every run, what a tick under a list with routes asks for: nothing under the lock; a withdrawal if and only if the list is recognised and enough probes in a row failed; the list if and only if it is not recognised, enough succeeded and the hold time since the last change has passed |
| RouteDecisions.CurrentIffRecognised | vpn-gw/route-agent.sh:106-110 | the list counts as current if and only if the preferences can be read and show exactly the wanted routes, none of them wanted twice |
| RouteDecisions.RequestTakesEffect | vpn-gw/route-agent.sh:120-166 | direct: a request that works sets the node, the state file, the time and the flap file, and locks if and only if it is a withdrawal that fills the hour; one that fails leaves all of them |
| RouteDecisions.RecentCounts | vpn-gw/route-agent.sh:114-118 | pruning keeps an entry as often as it was there if it is later than the cut, and otherwise not at all |
| RouteDecisions.PlainRoutes | vpn-gw/route-agent.sh:106-110 | an address with a prefix length is seen again if and only if it consists of digits and dots |
| RouteHistory.HistoryHolds | vpn-gw/route-agent.sh:114-166 | after every run with a clock that never goes back, whatever the lists are and whatever fails: the flap file is the history cut to the last hour, a withdrawal that fills the hour has locked the agent, every advertisement keeps the hold time since the change before it, and two withdrawals have an advertisement between them |
| RouteHistory.PrunedIsWindow | vpn-gw/route-agent.sh:114-118 | in all these runs the pruned file equals the whole history of changes cut to the last hour |
| RouteHistory.CrowdedHour | vpn-gw/route-agent.sh:140-166 | an hour with two changes more than allowed takes at least half the allowed number, and one, of hold times |
| RouteFlaps.FlapInvHolds | vpn-gw/route-agent.sh:140-166 | at every tick of a run under a fixed list: changes alternate, the node shows the last one, and a withdrawal that fills the hour has locked the agent |
| RouteFlaps.FlapBound | vpn-gw/route-agent.sh:140-166 | in every run under a fixed list that reads back, any hour holds at most one change more than the limit |
| RouteBounds.ChangesAreSpaced | vpn-gw/route-agent.sh:154-166 | while no list is recognised on the node, recorded changes are a hold time apart and the stored time is that of the last one |
| RouteBounds.SteadyBoundIff | vpn-gw/route-agent.sh:106-166 | for any settings and any wanted list, with preferences readable at every tick or at none: all runs keep the bound if and only if the list is empty, or is recognised once written, or the limit times the hold time fills an hour |
| RouteBounds.BoundIff | vpn-gw/route-agent.sh:106-166 | the same for runs in which the preferences may be readable at any of the ticks: the bound is kept if and only if the list is empty or the hold time fills an hour, taken as often as the limit if the list is never recognised, and half the allowed number of times and once more if it can be |
| RouteBounds.AlwaysBoundIff | vpn-gw/route-agent.sh:106-166 | with lists that change freely between ticks as well: if and only if the hold time, half the allowed number of times and once more, fills an hour |
| RouteBounds.DefaultBound | vpn-gw/route-agent.sh:39-42 | with the script's own settings: kept with steady preferences if and only if the list is empty or recognised, and with unsteady ones only by the empty list |
| RouteBounds.AlternatingPreferences | vpn-gw/route-agent.sh:106-110 | settings that keep the bound for readable and for unreadable preferences, and a run in which the two alternate with six changes in 36 minutes where the bound is five an hour |
| RouteBounds.TwelveInAnHour | vpn-gw/route-agent.sh:39-42 | a list that is not recognised is written twelve times within an hour where the bound is five |
| Text.SplitAtBreak | cliproxy/pgstore-keys.py:90 | a text is split at each of Python's line breaks, and at a carriage return with a newline behind it once |
| ClientKeys.ScanLines | cliproxy/pgstore-keys.py:84-126 | the two nested index loops find what the row-by-row scanner finds |
| ClientKeys.ReadItems | cliproxy/pgstore-keys.py:112-126 | the inner loop stops at the line that ends the block and leaves it to the outer loop |
| ClientKeys.ScanConcat | cliproxy/pgstore-keys.py:84-126 | scanning a text is scanning its first lines and then the others from where these ended |
| ClientKeys.KeysFromText | cliproxy/pgstore-keys.py:84-131 | the client keys of a text, each once, in order |
| ClientKeys.Extract | cliproxy/pgstore-keys.py:136-151 | exactly the keys of the readable files that are neither samples nor placeholders, each once, in the order first met |
| ClientKeys.ReadWanted | cliproxy/pgstore-keys.py:154-160 | the lines of the file without surrounding blanks, none empty, each once |
| ClientKeys.WantedRoundTrip | cliproxy/pgstore-keys.py:139-160 | the file of keys to keep gives the extracted keys back exactly when none has a line break or a blank at an end |
| ClientKeys.KeyIsKept | cliproxy/pgstore-keys.py:139-160 | whatever the other keys are, a key is read back if and only if it has no line break and no blank at an end |
| KeyForms.WordedRead | cliproxy/pgstore-keys.py:34-67 | a scalar is read back from each of its forms: plain, with or without a comment, in single quotes with its quotes doubled, in double quotes with quotes and backslashes escaped, and as a JSON string, whatever stands behind the closing quote |
| KeyForms.PlainIff | cliproxy/pgstore-keys.py:60-65 | direct: unquoted text is a key if and only if it is no mapping and does not start with a character that is special in YAML |
| JsonStrings.JsonUndoesAscii | cliproxy/pgstore-keys.py:49-52 | every string is read back from the printable ASCII that json.dumps writes for it: short escapes, four-digit escapes and surrogate pairs (section 7 of RFC 8259) |
| KeyBlocks.BlockKeysAreRead | cliproxy/pgstore-keys.py:84-131 | for every text with one block of keys in any of these forms, with blank lines and comments between them, at the top level or under access: exactly these keys, in order |
| KeyBlocks.FlowKeysAreRead | cliproxy/pgstore-keys.py:70-81 | the same for a list on one line, whether the JSON library takes it or it is read part by part |
| Render.Print | cliproxy/render-config.py:55-60 | the printed block: the heading and one quoted line a key |
| Render.MergeKeys | cliproxy/render-config.py:46-52 | the non-empty keys of the file and then the secret, each once where it is first met |
| Render.ReplaceKeys | cliproxy/render-config.py:63-84 | the loop that copies lines and replaces blocks yields the rewritten template, or the error when there is no block |
| Render.RewriteTwice | cliproxy/render-config.py:63-84 | rewriting what was rewritten only depends on the block printed last |
| KeyRoundTrip.JsonUndoesEscape | cliproxy/pgstore-keys.py:40-52 | the scalar decoder (strings of section 7 of RFC 8259) undoes the printer's escaping exactly for keys without control characters |
| KeyRoundTrip.QuotedScalar | cliproxy/pgstore-keys.py:35-52 | the scan for the closing quote is not misled by escaped quotes or backslashes |
| KeyRoundTrip.OutsideUnchanged | cliproxy/render-config.py:63-84 | the lines outside the key lists are the same in the rendered text as in the template, for any keys without line breaks, but for an empty last line that ended in another break than a newline |
| KeyRoundTrip.LastLineExample | cliproxy/render-config.py:63-84 | there is such a template |
| TemplateText.SolidLinesStay | cliproxy/render-config.py:63-84 | the lines with text that neither open a key list nor look like a list item are the same in the rendered text as in the template, in order |
| TemplateText.ListIsReplaced | cliproxy/render-config.py:63-84 | a template with one key list is rendered to the lines in front of it, the printed list and the lines from where the list is over, and ends in a newline as before; told by how lines look |
| TemplateText.RenderedTemplate | cliproxy/render-config.py:55-84 | if a top-level section follows the list and no other line opens one, the scanner finds exactly the rendered keys, in order |
| KeyRoundTrip.RenderedKeys | cliproxy/pgstore-keys.py:84-131 | what the scanner finds in any rendered template: keys found before the list, the printed keys, keys found behind it |
| KeyRoundTrip.EveryKeyIsFound | cliproxy/pgstore-keys.py:84-131 | every printable key written into any template is found again |
| KeyRoundTrip.RoundTrip | cliproxy/render-config.py:55-84 | for a template with one key list, every list of distinct printable keys is read back exactly, in order, if and only if the scanner finds no key in the lines outside the list |
| KeyRoundTrip.ContiguousRoundTrip | cliproxy/render-config.py:55-84 | in particular for a template with one contiguous key list and no other entry that opens one, at the top level or under `access` |
| KeyRoundTrip.BlankKeyIsLost | cliproxy/pgstore-keys.py:154-160 | a printable key with a blank at an end is found by the scanner but in no file of keys to keep |
| KeyRoundTrip.BlankKeyExample | cliproxy/pgstore-keys.py:154-160 | the same for one key and template |
| KeyRoundTrip.RenderTwice | cliproxy/render-config.py:63-84 | rendering a rendered text with the same keys changes nothing, for every template and any keys without line breaks |
| SeedStore.Store.Collect | cliproxy/pgstore-seed.sh:112-128 | the rows of the token files, or the refusal of an unsafe name |
| SeedStore.RowsHoldContents | cliproxy/pgstore-seed.sh:112-128 | there is a row for a name exactly when a file of that name has content, and it holds the first such content |
| SeedStore.Store.SeedTables | cliproxy/pgstore-seed.sh:92-137 | exit status, tables and reported counts are those of the seed function, for every failing statement |
| Deploy.Host.Sync | cliproxy/pgstore-keys.py:219-241 | on success every wanted key is present; keys are only appended, only wanted ones, and where the proxy writes; a refused management key is told from other failures |
| Deploy.Host.Check | cliproxy/pgstore-keys.py:244-268 | success means that the proxy accepts every wanted key; if it accepts them all from the start, the check succeeds |
| Deploy.Host.SnapshotKeys | cliproxy/pgstore.sh:99-111 | the file holds exactly the worthy keys of the old configuration, the spool and the new rendering, in that order, and an empty list is refused |
| Deploy.AllKept | cliproxy/pgstore-keys.py:139-160 | every known key that has to work afterwards is in the list that sync and check read |
| Deploy.Host.Enable | cliproxy/pgstore.sh:113-170 | a database in use is not touched and a missing config row is seeded from the spool, else the old configuration, else the new one; an unreachable database leaves mode and tables alone and marks the failure; after success the store is on and what was seeded is on record; the row that was missing is that source |
| Deploy.Host.Disable | cliproxy/pgstore.sh:174-185 | the store is off; the spool is pulled into the files if and only if it was on |
| Deploy.Host.Prepare | cliproxy/pgstore.sh:99-185 | everything before the restart: with a database that is reached and has no config row, the row is afterwards the spool if that lists keys, else the configuration in use if that does, else the new rendering; the number of tokens seeded is on record |
| Deploy.Host.Rollback | cliproxy/pgstore.sh:208-229 | back to files; tables are cleared if and only if this run seeded and the reset works; with a cooperating proxy every wanted key is in the file configuration; tokens of the spool come back to the files if and only if nothing was seeded |
| Deploy.Host.Verify | cliproxy/pgstore.sh:231-285 | success means every wanted key is accepted and the mode is kept; otherwise the store is off after a rollback, and without a seed the tables only gained keys; success means as many tokens as files unless none was seeded; if nothing is wrong the run succeeds; token files change only in a rollback |
| Deploy.Host.Run | cliproxy/pgstore.sh:99-285 | a deployment that succeeds ends with every key of the old configuration, the spool and the new rendering accepted (but samples, placeholders and keys the file cannot hold); one that rolls back with a cooperating proxy keeps every wanted key; a database with a config row only gains appended keys; a rolled back seed whose reset works leaves both tables empty; after a success that seeded, the row is the spool, the configuration in use or the rendering (in this order, the first that lists keys) with keys appended, so nothing set there is lost |
| PluginConfig.FindLine | cliproxy/plugin-config.py:22-26 | the first line in a range with the given indent and text, or -1 |
| PluginConfig.FindBlockEnd | cliproxy/plugin-config.py:29-36 | the first line with content that is not deeper than the block, or the end |
| PluginConfig.MergeLines | cliproxy/plugin-config.py:39-70 | the edit of the line list in place of all branches |
| PluginConfig.Merge | cliproxy/plugin-config.py:39-70 | the same on texts |
| PluginConfig.MergedIsOn | cliproxy/plugin-config.py:39-70 | whatever the lines were, afterwards the first plugins entry holds a first configs entry that holds a first entry of the plugin whose block says enabled: true at indent 6 |
| PluginConfig.LeftAloneIffOn | cliproxy/plugin-config.py:57-66 | the edit changes nothing exactly when the plugin is on already |
| PluginConfig.MergedIsConservative | cliproxy/plugin-config.py:39-70 | the old lines survive in order around one run of new lines, or one switch inside the plugin's own block is flipped |
| PluginConfig.MergeTwice | cliproxy/plugin-config.py:39-70 | for every text: editing twice is editing once, the plugin is on afterwards, and nothing else changed |
| PluginEdit.AppendsSection | cliproxy/plugin-config.py:39-46 | direct: without the section its five lines are appended, behind a blank line unless the text is empty or ends in one |
| PluginEdit.AddsConfigs | cliproxy/plugin-config.py:48-53 | direct: a section without configs gets three lines at its end |
| PluginEdit.AddsPlugin | cliproxy/plugin-config.py:55-70 | configs without the plugin get two lines at their end |
| PluginEdit.SwitchesPlugin | cliproxy/plugin-config.py:55-66 | in the plugin's own block: nothing is done if it is on there, else the first switch that is off is flipped, and a switch is put in only where there is none |
| PluginEdit.RowsLookedFor | cliproxy/plugin-config.py:39-70 | direct: the lines looked for, letter by letter |
| PluginEdit.LinesWritten | cliproxy/plugin-config.py:39-70 | direct: the lines written, letter by letter |
| CaddyBlock.Replace | beszel/caddy_block.py:37-55 | the brace-counting loop does what the replacement function says |
| CaddyBlock.CloseFromBrace | beszel/caddy_block.py:40-51 | the brace found ends the shortest balanced stretch from the opening one; none found means the depth never comes back to zero |
| CaddyBlock.ReplaceCases | beszel/caddy_block.py:37-55 | the first block of the host at a line start, to its matching brace and one newline, is swapped and the text around it kept; the error comes only with a block that is never closed; otherwise the block is appended |
| CaddyBlock.BalancedPiece | beszel/caddy_block.py:37-55 | taking a balanced piece out or putting one in anywhere does not change whether the whole is balanced |
| CaddyBlock.ReplaceTwice | beszel/caddy_block.py:37-55 | whenever a replacement returns, replacing again changes nothing, for any host name and balanced body |
| CaddyBlock.BalanceKept | beszel/caddy_block.py:37-55 | the result is balanced if and only if the file was; a balanced file is never refused |
| CaddyBlock.BlockOnFile | beszel/caddy_block.py:37-55 | the two statements above together, on every file, for any host name and balanced body |
| CaddyBlock.Site | beszel/caddy_block.py:11-55 | in particular for the site's host and any block with the site's nesting of braces |
| CaddyText.BlockIsSwapped | beszel/caddy_block.py:37-55 | in a text of something, a line that starts with the host, blanks and a balanced pair of braces, and something, with no such line before: the new block takes the place of the old one and of one newline behind it |
| CaddyText.BlockIsAppended | beszel/caddy_block.py:38-39 | without such a line the note and the block follow the text, less the newlines at its end |
| CaddyText.OpenBlockIsRefused | beszel/caddy_block.py:40-51 | a first block whose depth never comes back to zero is refused |
| NodeDedup.PlanActions | node-dedup/dedup.py:222-252 | grouping, sorting and the two loops yield the plan |
| NodeDedup.GroupsInOrder | node-dedup/dedup.py:229 | groups are visited by user and then by hostname, in the order of their characters |
| NodeDedup.Keeper | node-dedup/dedup.py:233-238 | the node kept ranks at least as high as every node of its group |
| NodeDedup.KeeperIsBest | node-dedup/dedup.py:233-238 | nobody online gives way to somebody offline; among equals the one seen last is kept, and among those the one with the greater id |
| NodeDedup.AtMostMeans | node-dedup/dedup.py:233-238 | the order of ids and hostnames: a beginning comes first, otherwise the smaller character at the first difference |
| NodeDedup.PlanIsDue | node-dedup/dedup.py:222-252 | a plan holds exactly: a skip for each online and a delete for each offline node that is not its group's keeper, a rename for a keeper under another name |
| DedupRules.PlanForNode | node-dedup/dedup.py:222-252 | a node is deleted if and only if it has a hostname, is offline and a node of the same user and hostname outranks it; passed over if it is online instead; renamed to its hostname if nobody outranks it and it goes by another name |
| DedupRules.OnlyForNodes | node-dedup/dedup.py:222-252 | a plan asks nothing of anybody else |
| NodeDedup.Outlives | node-dedup/dedup.py:255-259 | whatever part of the plan is carried out, online nodes, keepers and nodes without a hostname stay, unchanged but for a keeper's given name |
| NodeDedup.KeeperStays | node-dedup/dedup.py:222-259 | whatever part of the plan is carried out, every group keeps its keeper |
| NodeDedup.Survivors | node-dedup/dedup.py:222-259 | the whole plan removes exactly the offline nodes that are not keepers |
| NodeDedup.Converges | node-dedup/dedup.py:222-259 | planning again on the result asks for nothing but skips |
| NodeDedup.PlanApprovals | node-dedup/dedup.py:262-283 | the loop yields the approvals |
| NodeDedup.ApprovalsOnlyAdd | node-dedup/dedup.py:262-283 | carrying out any part of the approvals takes no route away and adds only advertised ones |
| NodeDedup.ApprovalsAreFinal | node-dedup/dedup.py:262-283 | after all of them every advertised route is approved and nothing is left to approve |
| RouteAgents.NodeFollowsWrites | vpn-gw/route-agent.sh:120-122 | direct: the node's routes change only to what a tick asked for |
| RouteAgents.LockIsFinal | vpn-gw/route-agent.sh:135-138 | direct: the agent never takes the lock back and records no change under it |
| RouteAgents.FailingNeverAdvertises | vpn-gw/route-agent.sh:140-166 | direct: a tick whose probe fails leaves the node as it is or empties it |
| SeedStore.SeedOnlyFillsGaps | cliproxy/pgstore-seed.sh:92-137 | direct: with a config row seeding changes nothing; each table changes exactly when its own statement was reached and worked, and token rows are never overwritten; a seed that ends well leaves the config row missing exactly when the read that looks for it failed |
| SeedStore.SeedsTokensIff | cliproxy/pgstore-seed.sh:97-132 | direct: a run in which everything works seeds the tokens exactly when both tables are empty |
| SeedStore.RetryAfterFailure | cliproxy/pgstore-seed.sh:97-137 | direct: after a failed seed of an empty database, whichever statement failed, the next run seeds the tokens if and only if the failed one wrote neither the config row nor a token row |
| SeedStore.TokensAreLost | cliproxy/pgstore-seed.sh:111-130 | direct: a seed in which only the token transaction fails leaves a state in which the next run reports success and no tokens |
| SeedStore.ResetUndoesSeed | cliproxy/pgstore-seed.sh:157-159 | direct: a reset after a seed restores the two tables if and only if there were no token rows |

Rows marked direct are consequences of one function by a short distinction of cases. They are there for what they tell
a caller, not as main results.

## Left out

- HTTP upgrade and hijacking, NaCl boxes, key files and logging: the handshake is an oracle that says whether the key is verified.
- The text of the site's Caddy block is not repeated: the results hold for any lines without braces between the same pairs.
- The two writes of the handshake take no lock in the source; here they pass through the same stages as every other frame, and nobody can contend for them yet.
- Read deadlines, tickers and contexts: a tick, a cancelled context or a failed read may happen at any time.
- Real sockets and data races on a session's address: sending, receiving and roaming are single steps.
- How `bufio.Writer` splits its output: each write may emit any part of what is held, and an error sticks.
- The relay as one class: registry, dispatch and channel are modelled on values in the transition system, because their steps interleave; update in place is shown on the writer, the session table and the cache.
- The invalidation of a cached endpoint after a failed send: modelled in `Endpoints`, not repeated as a step of `Relay`.
- Liveness: a reader may stay blocked on a full channel after its handler has gone; only safety is claimed.
- `protocolVersion`, `IsUDPCapable` and the JSON of the server info: no behaviour beyond passing bytes on.
- The network probe, the dashboard call, `tailscale` and `docker`: outcomes are inputs of a tick. A failing `tailscale set` is taken to change nothing.
- Pathname expansion of the route list by the shell, parts of IPv6 prefixes that the agent's `grep` may show as IPv4 routes, and locale-dependent sorting.
- A second writer of the node's routes, or an operator who removes the lock file, between two ticks.
- The JSON library on flow lists: a parameter of the scanner. Lone surrogate escapes in JSON strings are refused; Python keeps them.
- Reading the key file and the other placeholders of `render-config.py` (lines 32-43 and 87-110), and the listing `export`.
- YAML: a configuration in `Deploy` is its key list, whether it mentions one, and the rest. The text level is in `ClientKeys`, `Render` and `PluginConfig`.
- The step that edits the plugin in the database (`plugin-deepseek`), backups, the tunnel service and `.env` as text.
- A management PATCH replaces a known key and appends an unknown one, as the fake proxy of the tests does; a refused call changes nothing.
- Deploy.Host.Run: runs the steps in the order of the deploy workflow. The claim about rollbacks needs a management key that is accepted and a second sync that goes through, because the script skips that sync once the key was refused; the old copy of the configuration is the one made in the same run.
- SeedStore.Store.SeedTables: token contents are text; the conversion to JSON rows either works for all files or fails the transaction. A statement that reports failure has had no effect, so a connection lost right after a commit is not modelled; the counts printed at the end cannot fail the script.
- Headscale's answers: deleting removes a node and renaming sets its given name; a refused call is an action that was not carried out.
- The dashboards, latency statistics and SQLite tables of `node-dedup/dedup.py`: presentation.
- `ping-reporter`, `scripts`, `beszel/bootstrap.py`, `cliproxy/quota-failover.py`, `portainer-vpn4`, Compose, Caddy and nginx files: configuration and API calls with easy logic.
