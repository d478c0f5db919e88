# Home inventory: a verified model

This project models the stateful core of a home-network asset inventory in Dafny and proves what its
loops keep. The program discovers devices, reconciles them into a database, lets one admin merge, link,
dismiss and delete assets, runs a metered chat assistant over them and tracks vulnerability findings. Its
database has no cascading deletes and few unique constraints, so every invariant is kept by hand-written
loops.

The database is the class `Models.Session`, whose tables are maps from the primary key, or sequences where
only the order of creation matters; every query sees the session's own earlier writes. A query that takes the
first row without an order is an arbitrary choice. The parts:

- **Discovery.** `DeviceMerge` states the merging of reports on values, with an independent description;
  `MacMerge` describes the merge by MAC the same way;
  `DiscoveredDevices` is the in-place loop over shared objects and is proved equal to it. `InventoryCards`
  states reconciliation on cards (an asset with its interface and services); `Reconcile` is the table code
  and is proved to refine it. `InventoryIdempotence` proves that a batch reconciled twice changes nothing,
  and `ReconcileTwice` says so of the rows of the tables.
  `SourceNames` is about joined collector names and their priorities.
- **Merging and deleting.** `AssetChildren` has the loops over every child table; `MergeQuotient` shows that
  a merge is a quotient of the database; `Links` and `Candidates` are about same-device links and dismissals;
  `Requests` has the admin's requests and the invariant they keep.
- **Assistant.** `ChatTranscript` is about stored turns and the window that is sent again; `ChatTurn` is the
  tool loop against an arbitrary API; `SpendLedger` prices calls and gates them; `UntrustedText` is the
  envelope around device text.
- **Findings.** `FindingSla`: enrichment, status changes and exposure resync keep one derived date.
- **Exact algorithms.** `LoginThrottle`, `Pagination`, `KasaWire`; `ThrottleOverlap` is about logins that overlap.
- **Everything together.** `Server.Serve` runs any sequence of all these requests on one database, keeps the
  conjunction of the invariants and says what each request did; `History` is about moments of such a run that
  lie far apart: a dismissal holds, a key is never reused, no MAC comes to two assets.

Time is in seconds, money in millionths of a dollar. Parameters stand for what lies outside: clocks, the API,
tool handlers, page servers, sockets, the reading of owner settings, text normalisation, the pair score, the
fingerprint hash and the start of a month. `dafny verify dfyconfig.toml` checks the project.

Where the comments of the program and its code differ, the model follows the code. The comment on
`_retire_attachments` speaks of `_build_messages`; the stripping is in `_replay` (app/assistant.py:936-955).
The opening comment of `merge_asset_into` says that it reassigns interfaces and services; those whose key the
survivor already has are deleted (app/asset_children.py:137-166).

## Model

| member | source | states |
|---|---|---|
| `SourceNames.SplitOfJoined` | discovery/reconcile.py:89-90 | splitting a joined source name on "+" gives back the parts of both names, in order |
| `SourceNames.JoinPriority` | discovery/reconcile.py:119-122 | joining two sources gives the higher of their two hostname priorities, whether or not the second was already a part |
| `SourceNames.NestedMergePriority` | discovery/reconcile.py:52-53 | however merges nest, the joined source has exactly the highest priority of the collectors that went into it |
| `SourceNames.JoinedParts` | discovery/reconcile.py:52-53 | the parts of the joined source are the parts of both, or those of the first when the second was already one of them |
| `SourceNames.NamePriority` | discovery/reconcile.py:109-122 | one collector alone has priority 2 if it is a UniFi source, 1 if it is nmap, and 0 otherwise |
| `DeviceMerge.MergeByIpMeaning` | discovery/reconcile.py:17-55 | independent description of `merge_by_ip`: set aside are exactly the devices without an IP or whose MAC came second on their IP, in order; every other device is in the one entry of its IP, whose MAC, hostname, type, vendor, VLAN, network and connection are the first that any contributor gave, whose extra data is the last given, whose services are all of theirs in order, and whose source is their join |
| `DeviceMerge.MergeKeys` | discovery/reconcile.py:17-92 | in both merges each key has one entry, and every device kept apart conflicts with the entry of its key |
| `DeviceMerge.MergeIdempotent` | discovery/reconcile.py:17-92 | merging a merged list again returns it unchanged, in order, for both merges |
| `DeviceMerge.MergedByIpSharesNoBareIp` | discovery/reconcile.py:28-41 | after `merge_by_ip` no device without a MAC shares its IP with another device of the list |
| `DeviceMerge.MergeByIpConserves` | discovery/reconcile.py:17-55 | `merge_by_ip` keeps the set of MACs, the set of IPs and the multiset of services |
| `MacMerge.MergeByMacMeaning` | discovery/reconcile.py:58-92 | independent description of `merge_by_mac`: set aside are exactly the devices without a MAC, in order; every other device is in the one entry of its MAC, whose IP, hostname, type, vendor, connection, model, firmware and three identity numbers are the first that any of them gave, whose VLAN, network and services are those of the first of them, whose extra data is the last given, and whose source is their join |
| `MacMerge.MergeOrder` | discovery/reconcile.py:55-92 | in both merges the entries come in the order in which their keys first came, then the devices set aside in theirs |
| `DiscoveredDevices.DiscoveredDevice.AbsorbByIp` | discovery/reconcile.py:43-53 | in place: what the object already says stays, what is missing is filled from the other, services are appended, sources joined |
| `DiscoveredDevices.DiscoveredDevice.AbsorbByMac` | discovery/reconcile.py:78-90 | the same for the fields that the merge by MAC carries over |
| `DiscoveredDevices.StepByIp` | discovery/reconcile.py:22-53 | one turn of the loop over the shared, mutable objects does to dict and list what one step of the merge does to values |
| `DiscoveredDevices.MergeByIp` | discovery/reconcile.py:17-55 | over any lists of distinct objects the in-place loop returns objects whose values are the merge of the values they had before |
| `DiscoveredDevices.MergeByMac` | discovery/reconcile.py:58-92 | the same for the merge by MAC |
| `InventoryCards.StepKeepsInv` | discovery/reconcile.py:164-277 | one device keeps: one interface per asset, MACs unique, IPs unique among interfaces without a MAC, one service row per port; and changes no recorded MAC |
| `InventoryCards.RunKeepsInv` | discovery/reconcile.py:153-277 | the same over a whole run |
| `InventoryCards.BatchesOutlive` | discovery/reconcile.py:153-277 | over any sequence of runs, from any of them on: the invariant holds, no asset is lost, no recorded MAC changes, no hostname passes to a source of lower priority |
| `InventoryCards.RunDecomposes` | discovery/reconcile.py:164-277 | a run does to each asset exactly what its own matched devices do to it in order, whatever the other devices are |
| `InventoryCards.LastMaxMeaning` | discovery/reconcile.py:201-207 | the chosen name comes from the last device among those of the highest source priority |
| `InventoryCards.HostnameAfterRun` | discovery/reconcile.py:183-207 | after a run an unlocked asset is named by that device, unless its priority is below the stored one; the stored priority never falls |
| `InventoryIdempotence.TouchAllPlace` | discovery/reconcile.py:200-274 | after a list of devices every field of asset, interface and services but the name and the owner holds what the last device that writes it wrote, or what it held before (HostnameAfterRun and OwnerStays are about those two) |
| `InventoryIdempotence.AbsorbedDevicesChangeNothing` | discovery/reconcile.py:200-274 | devices that an asset has absorbed change nothing but time stamps when they come again |
| `InventoryIdempotence.FirstRunMatched` | discovery/reconcile.py:170-176 | in the first run the devices that land on an asset which holds an address at the end are exactly those whose address that is |
| `InventoryIdempotence.SecondRunMatched` | discovery/reconcile.py:170-176 | in the second run every device lands on the asset it settled on in the first |
| `InventoryIdempotence.SecondRunAdds` | discovery/reconcile.py:178-198 | the second run creates one asset per device with neither MAC nor IP, and no other |
| `InventoryIdempotence.OwnerStays` | discovery/reconcile.py:212-213 | the owner rule gives the same owner again, also where the configured owner is empty |
| `InventoryIdempotence.BatchTwice` | discovery/reconcile.py:153-277 | reconciling a batch twice: everything the first run left is unchanged up to time stamps, and the only new rows are those of the devices without an address |
| `InventoryIdempotence.MergedBatchTwice` | discovery/reconcile.py:17-277 | in particular for whatever `merge_by_ip` returns |
| `ReconcileTwice.RunTwice` | discovery/reconcile.py:153-277 | on the tables: after the second of two runs with one batch every row the first left is there under its primary key, unchanged up to its time stamp; no asset of the first has a new row; the assets created are exactly one per device with neither MAC nor IP |
| `Reconcile.FindAssetByMac` | discovery/reconcile.py:125-129 | returns the asset of some interface with the MAC, or none when there is none |
| `Reconcile.FindAssetByIp` | discovery/reconcile.py:132-150 | returns the asset of a most recently seen interface with the IP and no MAC, or none when there is none |
| `Reconcile.LocateAsset` | discovery/reconcile.py:164-176 | the order of the lookups: at a gateway address the owner of an interface with the gateway MAC, then that of one with the device MAC, then that of the most recently seen interface with the IP and no MAC; none when there is none |
| `Reconcile.UpsertInterface` | discovery/reconcile.py:233-256 | the row updated is the asset's row with the MAC, else its row with the IP, else a new one; its columns are filled from the report and never blanked, it carries the time of the run, and no other row changes |
| `Reconcile.UpsertServices` | discovery/reconcile.py:258-274 | repeated ports in one report end in one row; the asset has exactly its updated rows; rows of other assets are untouched; (asset, port, protocol) stays unique |
| `Reconcile.DeviceRefined` | discovery/reconcile.py:164-274 | the three upserts do to tables that are cards exactly what one device does to the cards |
| `Reconcile.ReconcileIntoDb` | discovery/reconcile.py:153-277 | for any tables, gateway or not: counts add up, and the tables go through one turn per device, in order, each locating its asset and changing exactly its columns, one interface row and its service rows (TurnLands and RunStamps say it column by column) |
| `Reconcile.TurnLands` | discovery/reconcile.py:164-274 | column by column, of one turn: the device lands on the asset the lookups find or on a new one; name, owner, vendor, type and identity of the asset are what the report and the locks say, the rest of it is left alone; that asset, one interface of it, filled from the report, and its reported services carry the time of the run, each reported service has a row, and every other row of the three tables is as it was |
| `Reconcile.RunStamps` | discovery/reconcile.py:161-274 | over a run: an asset known before carries the time of the run if and only if a device landed on it, otherwise it is untouched; a new asset carries it in both of its dates |
| `Reconcile.TurnsRefine` | discovery/reconcile.py:153-277 | away from the gateway, tables that are cards go through the run of those cards |
| `Reconcile.TurnsStay` | discovery/reconcile.py:153-277 | over any run no row is lost, changes its owner or its port, and new assets have new keys; away from the gateway, if no MAC was on interfaces of two assets, none is |
| `Reconcile.CardsMeanTables` | discovery/reconcile.py:132-150 | on the tables: each asset has exactly one interface, no MAC is on two, no two interfaces without a MAC share an IP |
| `Reconcile.ReconcileAll` | discovery/reconcile.py:153-277 | any number of runs without gateway context take tables that are cards through the runs of those cards |
| `Reconcile.EmptyTables` | discovery/reconcile.py:153-160 | the tables of a new database are cards |
| `Reconcile.MacOverwritten` | discovery/reconcile.py:233-250 | an upsert changes a MAC that a row had exactly when the asset has no interface with the reported MAC and the chosen one has the reported IP |
| `Reconcile.GatewayCanOverwriteMac` | discovery/reconcile.py:172-250 | concrete report at a gateway address, located at the router and upserted there, that overwrites the MAC of the router: why MAC stability is claimed only away from the gateway |
| `AssetChildren.DeleteAssetCascade` | app/asset_children.py:71-113 | what becomes of each table: children, links and dismissals of the asset are gone, its ledger rows and the proposals drafted from it are detached |
| `AssetChildren.MoveDistinct` | app/asset_children.py:137-166 | the rows that move have keys the survivor lacks, one row per key; the other rows of the duplicate are deleted, whatever order they are read in |
| `AssetChildren.CleanRelationships` | app/asset_children.py:232-244 | self-links of the survivor go, and of each directed triple that touches it one row is left |
| `AssetChildren.MergeAssetInto` | app/asset_merge.py:14-22 | what becomes of each table when the duplicate is merged into the survivor; nothing when they are the same (MergedRows and MergedLogRows say it column by column) |
| `MergeQuotient.DeleteLeavesNoReference` | app/asset_children.py:71-113 | afterwards no row of any table refers to the asset, by either foreign key |
| `MergeQuotient.DeleteSparesRows` | app/asset_children.py:71-113 | every row that does not refer to the asset is as before, and proposals about other assets are kept |
| `MergeQuotient.DeleteSparesLogs` | app/asset_children.py:75-81 | notes, probe results and chat of other assets keep their multiplicities; every ledger row stays, in place |
| `MergeQuotient.MergeLeavesNoReference` | app/asset_children.py:116-244 | after a merge no row refers to the duplicate |
| `MergeQuotient.MergeSparesTheRest` | app/asset_children.py:116-244 | interfaces and services of all other assets and relationships that touch neither asset are unchanged |
| `MergeQuotient.MergedRows` | app/asset_children.py:116-244 | every interface, service and relationship row that is left equals its old row in every column but the asset ids, in which the survivor stands for the duplicate |
| `MergeQuotient.MergedLogRows` | app/asset_children.py:167-231 | the same for findings, proposals, notes, probe results, chat and ledger, of which every row stays; left of the dismissals are exactly those that do not name the duplicate |
| `MergeQuotient.KeysUnited` | app/asset_children.py:126-166 | interface and service keys of the survivor become the union of both, the other assets keep theirs |
| `MergeQuotient.TriplesUnited` | app/asset_children.py:176-244 | relationship triples become their image under duplicate-to-survivor, minus self-loops of the survivor |
| `MergeQuotient.MergeIsQuotient` | app/asset_children.py:116-244 | one merge is the quotient of the whole database by that duplicate |
| `MergeQuotient.QuotientTwice` | app/routers/dashboard.py:760-770 | merging more duplicates is the quotient by all of them: order and grouping do not matter |
| `MergeQuotient.RepointedTwice` | app/routers/dashboard.py:760-770 | merging one more duplicate leaves rows that differ from the first ones in nothing but the asset ids |
| `MergeQuotient.WhatMergesLeave` | app/routers/dashboard.py:760-770 | after any merges into one survivor it has exactly the MAC and IP pairs and the ports that any of them had, and related are exactly the assets that were, each duplicate standing for the survivor, but never the survivor to itself |
| `Links.LinkAssets` | app/correlate.py:414-447 | keeps links irreflexive, unrepeated and mirrored; adds exactly the two rows of the pair, with the detail, unless it is linked; refuses only a self-link |
| `Links.UnlinkAssets` | app/correlate.py:450-465 | removes that row with one mirror of it and no other row, so exactly that link, and nothing when the row is not one of the asset's |
| `Links.RemoveSameDeviceLink` | app/correlate.py:468-484 | finds the link if and only if the pair is linked, and removes exactly it |
| `Links.DeleteKeepsMirror` | app/asset_children.py:83-89 | a cascade delete keeps the mirror and removes exactly the links of the asset |
| `Links.MergedLinks` | app/asset_children.py:176-244 | after a merge two assets are linked exactly when assets that became them were, and they are not both the survivor |
| `Links.MergeKeepsMirror` | app/asset_children.py:210-244 | a merge keeps links irreflexive, unrepeated and mirrored |
| `Candidates.DismissCandidate` | app/correlate.py:315-345 | each pair keeps one dismissal row whichever way it is given, with the current fingerprint and time; exactly that fingerprint counts as dismissed; other pairs unchanged; refused exactly for equal or unknown assets |
| `Candidates.FindCandidates` | app/correlate.py:348-411 | exactly the listed candidates, by falling score, and those of one score in the order of the query |
| `Candidates.ListedMeaning` | app/correlate.py:392-408 | a candidate is listed if and only if its pair comes in that order, is neither linked nor dismissed as it is, and scores enough |
| `Candidates.OrderDoesNotMatter` | app/correlate.py:298-312 | which asset of a pair is named first changes neither its fingerprint nor whether it is dismissed |
| `Candidates.IdentityMeaning` | app/correlate.py:284-295 | two identities are equal if and only if the types, the names and the vendors (up to case and blanks), and how often each MAC is held (up to case), are the same; no other column counts |
| `Candidates.UndismissedIsOffered` | app/correlate.py:392-408 | a pair without a dismissal is listed if and only if it is unlinked and scores enough |
| `Candidates.DismissAll` | app/routers/dashboard.py:1063-1071 | every listed pair is afterwards dismissed as exactly its current fingerprint, and no dismissal of another pair changes |
| `Candidates.LaterSearchLists` | app/routers/dashboard.py:1063-1071 | a later search, in any order, lists exactly what it would have listed before without the dismissed pairs |
| `Candidates.DismissAllEmptiesTheList` | app/routers/dashboard.py:1063-1071 | the same search then lists nothing |
| `Candidates.DismissedStaysAway` | app/correlate.py:284-312 | while the dismissal is stored and type, name, vendor and MACs of both assets are the same the pair is not listed, whatever addresses, owners, other columns and assets, scores or orders are (History.DismissedForGood says when it stays stored) |
| `Candidates.ChangedIdentityIsOfferedAgain` | app/correlate.py:298-312 | with an injective hash, once type, name, vendor or the MACs of either asset changed the pair is listed if and only if it is unlinked and scores enough |
| `Requests.MergeKeepsPorts` | app/asset_children.py:150-166 | a merge keeps one service row per asset, port and protocol |
| `Requests.AssetDelete` | app/routers/dashboard.py:1615-1626 | deletes an existing asset with everything that refers to it and keeps the whole invariant; nothing for an unknown one |
| `Requests.DuplicatesMerge` | app/routers/dashboard.py:760-770 | merges exactly the assets with the survivor's hostname, when it has one, into it, in any order: the result is the quotient by all of them, and rows that are left change in nothing but the asset ids |
| `Requests.DuplicatesMergePair` | app/routers/dashboard.py:773-793 | merges exactly the other member of the pair, and only if both exist and the survivor is one of them |
| `Requests.InvestigateLink` | app/routers/dashboard.py:1033-1049 | links two existing assets, changes no other link, writes one note on each that names the other and gives the reason, and keeps the invariant |
| `Requests.AssetUnlink` | app/routers/dashboard.py:1608-1612 | removes that row with one mirror of it, no other row, and keeps the invariant |
| `Requests.DuplicatesDismissPair` | app/routers/dashboard.py:796-811 | afterwards the pair is unlinked and dismissed as exactly what it is now, and no other pair changed |
| `Requests.AssetUpdate` | app/routers/dashboard.py:1165-1240 | an edit with any new column values keeps the whole invariant, due dates included |
| `Requests.ChatClear` | app/routers/dashboard.py:1508-1516 | removes exactly the chat of the asset and leaves the others whole |
| `ChatTranscript.StartsFrom` | app/assistant.py:924-934 | the rebased list of turn starts of a window is the list of turn starts of that window |
| `ChatTranscript.ReplayIsPaired` | app/assistant.py:896-966 | of a paired transcript at most ten turns are sent, from a real question on, and every tool call is answered in the next message |
| `ChatTranscript.QuestionIsSentWhole` | app/assistant.py:896-966 | of any transcript that ends on a question: sent is the history from its tenth last question on, in which lines stand for the attachments, and then the question whole, attachments included, with the cache mark on its last block |
| `ChatTranscript.ReplayGrows` | app/assistant.py:957-964 | a message that starts no turn is appended to the replay, cache marks aside |
| `ChatTranscript.RetirementIsInvisible` | app/assistant.py:825-855 | the replay is the same whichever attachments before the newest question are retired |
| `ChatTranscript.NextQuestionSeesTheSame` | app/assistant.py:936-955 | so the next question is sent with the same history |
| `ChatTranscript.TranscriptsArePaired` | app/assistant.py:896-913 | when the chat table is made of whole turns, every asset's transcript is paired |
| `ChatTranscript.DeleteKeepsTurns` | app/asset_children.py:71-78 | deleting an asset keeps the table made of whole turns |
| `ChatTranscript.MergeKeepsTurns` | app/asset_children.py:167-170 | merging assets keeps the table made of whole turns, of both assets now |
| `ChatTurn.ExecuteTool` | app/assistant.py:775-805 | there is always a result and it names the call; it is an error exactly for an unknown tool, a raised exception or an error value, with the text of each; other values come in the envelope of untrusted text |
| `ChatTurn.ResultsAnswer` | app/assistant.py:1225-1226 | the results are those of the tool calls, one each, in order |
| `ChatTurn.Replay` | app/assistant.py:896-966 | the loops compute the replay of the stored rows (QuestionIsSentWhole says what that is) |
| `ChatTurn.RetireAttachments` | app/assistant.py:825-855 | replaces the attachments of one row, or leaves it alone when it has none or the commit fails |
| `ChatTurn.ToolLoop` | app/assistant.py:1140-1235 | at most eight calls, each let through by the gate with the ledger as it then is and sent the replay of what is stored; how each ending comes about; what is stored and charged |
| `ChatTurn.RunChatTurn` | app/assistant.py:1070-1242 | refused up front it leaves no trace; otherwise the question is stored, with the exchange, and its attachments retired (WhatIsSent, WhatIsStored and WhatIsCharged say it block by block and row by row) |
| `ChatTurn.WhatIsSent` | app/assistant.py:1128-1160 | each call of a turn is sent the recent history with stand-ins for its attachments, then the question with every file uploaded with it, in order, then the replies of this turn so far, each with the results of its tools |
| `ChatTurn.WhatIsStored` | app/assistant.py:1123-1242 | stored are the question, with stand-ins for its files once the turn is over, and then exactly the replies that were neither refused nor cut off, each with the results of its tools |
| `ChatTurn.WhatIsCharged` | app/assistant.py:1201-1219 | in at most eight calls the ledger gets one row for each reply whose row could be written, in order, at its time and with its price; refused replies and ones that were cut off are paid for too |
| `ChatTurn.ResultsAreResults` | app/assistant.py:775-805 | the results of a reply are those of its tool calls, one each, in order: named after the call, with the error text or the enveloped value |
| `ChatTurn.EveryFileIsNamed` | app/assistant.py:1115-1121 | the text of a question ends on the words of the user, and names every file before them |
| `ChatTurn.TurnIsPaired` | app/assistant.py:1212-1230 | whatever the API replies, the rows of a turn are paired; they end on the user's side unless the last reply calls no tool |
| `ChatTurn.TurnIsWhole` | app/assistant.py:1070-1242 | every ending leaves the chat table made of whole turns and other transcripts alone; the transcript ends on the user's side if and only if the assistant did not answer |
| `ChatTurn.EveryRequestIsValid` | app/assistant.py:1128-1160 | every list of messages sent starts on a real question, holds at most ten turns and has every tool call answered |
| `ChatTurn.RequestIsReplay` | app/assistant.py:1128-1230 | mid-turn the messages in memory are the replay of the stored rows, cache marks aside |
| `ChatTurn.TurnKeepsLedger` | app/assistant.py:1143-1208 | with a clock that does not go back, a turn keeps every ledger row admitted by the gate |
| `SpendLedger.HalfEven` | app/ai_pricing.py:71 | nearest integer, ties to even |
| `SpendLedger.RoundingIsUnique` | app/ai_pricing.py:71 | no other integer is the half-even rounding of the same cost |
| `SpendLedger.CostUsd` | app/ai_pricing.py:39-71 | known exactly for the models of the table; then the exact cost rounded half-even to a millionth of a dollar; missing counts are zero |
| `SpendLedger.CostIsTheBill` | app/ai_pricing.py:59-71 | the cost is the bill over real prices, a tenth of the input rate for cache reads and five quarters for cache writes, off by at most half a millionth |
| `SpendLedger.ListPrices` | app/ai_pricing.py:28-32 | the list prices of a million tokens, for exactly the three models |
| `SpendLedger.CostIsMonotone` | app/ai_pricing.py:64-71 | more tokens of any kind never cost less |
| `SpendLedger.BudgetBlockReason` | app/assistant.py:347-396 | no reason if and only if the switch is on and day and month are fully priced and below their limits |
| `SpendLedger.OnlyThisPeriodCounts` | app/assistant.py:306-328 | with no row of the future, what is summed from the start of the current period is exactly what was spent in it, and it counts as partial exactly when a direct call of it is unpriced |
| `SpendLedger.GateMeaning` | app/assistant.py:354-396 | so the gate is open if and only if the switch is on and the spend of this day and of this month are each priced and below the limit, whatever earlier periods hold; closed, it gives the first reason that applies |
| `SpendLedger.DayMeaning` | app/assistant.py:356-357 | a day starts at midnight and lasts 86,400 seconds |
| `SpendLedger.SpendIsBounded` | app/assistant.py:347-396 | the recorded spend of any period stays below its limit plus the largest cost of one call |
| `SpendLedger.BudgetsHold` | app/assistant.py:347-396 | that for each UTC day and each month of a gated ledger |
| `SpendLedger.UnpricedClosesTheMonth` | app/assistant.py:354-390 | after an unpriced direct call the gate stays closed for the rest of the month, and the ledger has no later row in it |
| `SpendLedger.LogUsage` | app/assistant.py:1026-1066 | appends the priced row, or nothing when the write fails |
| `SpendLedger.AutofillModelNumber` | app/routers/dashboard.py:150-181 | calls only when wanted and the gate is open, and keeps the ledger gated |
| `SpendLedger.DeleteKeepsLedger` | app/asset_children.py:80-82 | `_period_spend` is the same from every start before and after a deletion |
| `SpendLedger.MergeKeepsLedger` | app/asset_children.py:172-174 | and before and after a merge |
| `UntrustedText.RemoveAllChanges` | app/assistant.py:259 | a pass of `replace` changes the text if and only if the tag occurs in it, and then shortens it |
| `UntrustedText.LeftmostIsRemoved` | app/assistant.py:259 | a pass of `replace` keeps what comes before the leftmost occurrence, drops that, and goes on after it |
| `UntrustedText.SanitizedMeaning` | app/assistant.py:257-264 | the inner text holds neither tag, is a subsequence of the input, and equals it when the input holds no tag |
| `UntrustedText.WrapUntrusted` | app/assistant.py:243-265 | the loop ends on every input and computes the envelope of the sanitized text |
| `UntrustedText.EnvelopeHolds` | app/assistant.py:239-265 | each tag occurs in the output exactly once, at its two ends |
| `UntrustedText.WrappedIsEnvelope` | app/assistant.py:257-265 | the output is the two tags on lines of their own around a text in which neither is left |
| `FindingSla.RescoreGivesNoExtraTime` | discovery/cve_enrich.py:52-78 | a rescore to severity and exposure no better than before keeps the date consistent and never moves it later |
| `FindingSla.Deadlines` | discovery/cve_enrich.py:52-80 | the table of deadlines in days, for every severity and exposure |
| `FindingSla.EnrichOne` | discovery/cve_enrich.py:265-312 | creates the missing finding or rescores an open, outdated one; nothing else changes; a pair already up to date is left alone |
| `FindingSla.EnrichFindings` | discovery/cve_enrich.py:255-312 | no finding is lost, only open ones are rescored, from their own detection date; only findings that a match names are new or changed; pairs stay unique and every match ends up with a finding that, while open, has the severity and exposure of now; a second run changes nothing |
| `FindingSla.EnrichedKeepsSla` | discovery/cve_enrich.py:281-312 | each finding that had the date of its severity and exposure still has it, and so has each new one |
| `FindingSla.UpdateStatus` | app/routers/dashboard.py:854-865 | changes status, and the closing date when closed; dates stay consistent |
| `FindingSla.PlanExposureResync` | discovery/exposure_resync.py:52-78 | the plan has the open findings of existing assets by id, and planning writes nothing |
| `FindingSla.ApplyExposureResync` | discovery/exposure_resync.py:91-110 | applies exactly the changed entries, with one note each |
| `FindingSla.AppliedPlan` | discovery/exposure_resync.py:52-110 | planning, then applying, resyncs each finding on its own |
| `FindingSla.NotesMeaning` | discovery/exposure_resync.py:91-110 | one note for each change of the plan, in its order, on the asset it is about |
| `FindingSla.RunExposureResync` | discovery/exposure_resync.py:132-153 | a run resyncs every finding; a dry run writes nothing |
| `FindingSla.ResyncMatchesAssets` | discovery/exposure_resync.py:64-77 | a resynced open finding is internet-facing exactly when its asset is and keeps a consistent date; no other column changes, nor any other finding; resyncing again changes nothing |
| `FindingSla.SecondPlanIsSettled` | discovery/exposure_resync.py:52-78 | a second plan has nothing to change |
| `FindingSla.MergeKeepsSla` | app/asset_children.py:167-170 | a merge keeps every date consistent |
| `FindingSla.MergeKeepsPairsUnless` | app/asset_children.py:167-170 | a merge leaves two findings for one asset and vulnerability if and only if both assets had one |
| `LoginThrottle.Throttle.Admit` | app/auth.py:60-83 | the first locked section: the pruned list, the sweep of stale clients, and refusal exactly from ten recent failures on |
| `LoginThrottle.Throttle.RequireAdmin` | app/auth.py:51-122 | alone, a request is throttled exactly when the full history since the client's last success has ten failures in the last 300 seconds; a blank configured password never lets anyone in |
| `LoginThrottle.SweepRefines` | app/auth.py:61-76 | pruning and sweeping never change what any later request counts |
| `LoginThrottle.RecentMeaning` | app/auth.py:63-66 | the recent failures are counted over the last 300 seconds |
| `LoginThrottle.AllowedFailureIsSpaced` | app/auth.py:78-103 | any eleven failures in a row without a success span at least 300 seconds |
| `ThrottleOverlap.RunsNeverOvercount` | app/auth.py:61-122 | under any interleaving of the two sections of any requests, every stored list counts each failed check at most once |
| `ThrottleOverlap.RefusalIsDeserved` | app/auth.py:78-83 | so a refusal always means ten distinct failed checks of the client within the window |
| `ThrottleOverlap.ApartMeansExact` | app/auth.py:61-122 | over any run in which no two requests of one client overlap, whatever other clients do meanwhile, a request is refused exactly when its client failed ten times in the window since its last success |
| `ThrottleOverlap.StoredCountsExactlyUnlessFelt` | app/auth.py:61-122 | over any run with distinct clock readings, the list that a failing request stores counts at a later time the failures of the table and its own if and only if nothing that other requests of the client did since it took its list is still felt then |
| `ThrottleOverlap.UntouchedCountsExactly` | app/auth.py:61-122 | whatever the clock readings, it counts so whenever no other request of the client ended in between |
| `ThrottleOverlap.OverlapCanLoseOne` | app/auth.py:100-103 | concrete overlap in which one of two failures is lost |
| `ThrottleOverlap.EnterSection` | app/auth.py:63-113 | the events of the interleavings are what the two sections of the throttle do |
| `Pagination.Paginate` | discovery/unifi_client.py:90-155 | against any server: at most 500 requests, each where the page before advanced to; it stops earlier only when the last page is empty, reaches the total, or does not advance |
| `Pagination.OffsetsRise` | discovery/unifi_client.py:131-145 | the offsets strictly rise |
| `Pagination.OffsetsAdvance` | discovery/unifi_client.py:104-145 | each request is for what lies behind the data that came, or behind the declared limit where that is less; it is made only while there is data and the declared total is not reached |
| `Pagination.HonestServerIsRead` | discovery/unifi_client.py:101-149 | from an honest server the result is a prefix of the list, and the whole list if and only if the pages were exhausted |
| `KasaWire.DecipherCiphered` | probes/kasa.py:39-54 | decrypting an encrypted text gives it back |
| `KasaWire.CipherDeciphered` | probes/kasa.py:48-54 | encrypting a decrypted text gives it back |
| `KasaWire.XorMeaning` | probes/kasa.py:43-52 | a bit of the exclusive or is set exactly when the two bits differ |
| `KasaWire.CipherChains` | probes/kasa.py:39-45 | each ciphered byte is its byte and the ciphered byte before it, the first with 171 |
| `KasaWire.HeaderBytes` | probes/kasa.py:45 | the prefix is the length in four bytes, the highest first |
| `KasaWire.Encrypt` | probes/kasa.py:39-45 | the loop computes the length in four bytes, the highest first, and then for each byte its exclusive or with the ciphered byte before it, the first with 171 |
| `KasaWire.Decrypt` | probes/kasa.py:48-54 | the loop undoes that: each byte is the exclusive or of the ciphered byte and the one before it, the first with 171 |
| `KasaWire.RecvExact` | probes/kasa.py:74-92 | exactly the next n bytes however they arrive, none beyond them; fails only when time runs out or the peer closes first |
| `KasaWire.ReadReply` | probes/kasa.py:99-117 | a reply is the frame at the start of the stream; a bad length is refused; in time, silence means that the stream is shorter than its frame |
| `KasaWire.FrameIsUnique` | probes/kasa.py:39-45 | a stream starts with at most one frame |
| `KasaWire.SendAndRead` | probes/kasa.py:95-117 | a payload of 1 to 65536 bytes comes back however the stream is split, and what follows the frame is unread |
| `Server.Handle` | app/routers/dashboard.py:760-811 | each kind of request does what its part promises, leaves every other table as it is, and keeps the invariant and the gated ledger |
| `Server.Serve` | app/routers/dashboard.py:760-811 | every sequence of requests of any kinds goes through moments that all satisfy the invariant and have a gated ledger, each made from the one before by its request |
| `Server.NewDatabase` | app/models.py:65-319 | a new database satisfies the invariant |
| `History.GoneForGood` | app/asset_children.py:110-113 | over any run an asset that was deleted or merged away never comes back and no later asset gets its key |
| `History.DismissedForGood` | app/correlate.py:284-411 | over any run, a pair dismissed at one moment is on no list at any later moment at which both assets are there with the same type, name, vendor and MACs; only dismissing the same pair again while these were others can bring it back |
| `History.MacsStayApart` | discovery/reconcile.py:125-277 | over any run without a discovery at a gateway address, no MAC comes to interfaces of two assets: not by discovery, merges, deletions or edits |
| `History.DiscoveryRefines` | discovery/reconcile.py:153-277 | within any run, a discovery away from the gateway takes tables that are cards through the run of those cards |
| `History.ResyncedAgrees` | discovery/exposure_resync.py:132-153 | within any run, after a resync every open finding has the exposure of its asset as edited and merged until then, and the date that this gives |

## Left out

- HTTP, templates, authentication headers other than the throttle, and everything that parses nmap, XML, JSON, CSV or dates.
- SQLAlchemy and Postgres: a commit always succeeds except where a row above says otherwise; the enforcement of foreign keys is a guard.
- The keyword classifiers, vendor guesses, probes' suggestions, warranty labels, backup status and valuation: easy members.
- NVD, EPSS and KEV queries and the refresh of vulnerability rows: the refreshed vulnerabilities are given.
- ReconcileIntoDb: at a gateway address, or for merged assets with several interfaces, it says what each turn does but the tables are not cards; MAC stability does not hold there (GatewayCanOverwriteMac).
- BatchTwice: needs the configured owners to be the same in both runs, or never empty; a run after the configuration changed may fill in an owner.
- MergeByIp: the device objects are distinct, as the normalizers build them (and so for MergeByMac); one object listed twice would be merged into itself.
- MergeByIpConserves: not for model, firmware and serial fields, which the merge by IP does not carry over.
- DismissAllEmptiesTheList: for a search that sees the assets in the same order; the score of a pair depends on the order, and LaterSearchLists says what another order can still list.
- StoredCountsExactlyUnlessFelt: clock readings are distinct and in the order of the lock; UntouchedCountsExactly, RunsNeverOvercount and RefusalIsDeserved hold for any readings.
- ExecuteTool: the rollback after a raised exception is not modelled.
- RunChatTurn: the tool handlers are oracles for their results; what they write to other tables (proposals, probe results) and the system prompt are not modelled.
- RunChatTurn: a turn is one request without others in between; turns that overlap, on one asset or through the shared budget, and a crash or a failed commit between a tool call and its results, are not modelled.
- LogUsage: whether the write succeeds is one flag, which stands for the savepoint.
- AutofillModelNumber: the checks before the gate are one flag, and the note of the guess is not modelled.
- SpendIsBounded: speaks of recorded spend; a call whose ledger row could not be written is not counted, as in the program. Calls that fail before a reply are not billed.
- InvestigateLink: an unknown asset, which the database refuses, is refused before anything is written.
- Request: no request makes, applies or discards a proposal, runs probes, or changes locations; an applied proposal edits an asset, adds a note or links a pair, as other requests do.
- EnrichFrom: a match of an unknown asset, which the database refuses, writes nothing.
- PeriodSum: sums are exact; the 28-digit precision of decimal arithmetic is not modelled.
