# Mail service: verified models

A mail service keeps messages, threads, send states, idempotency keys and
`Message-ID` aliases in one table. Ingest, the send API, senders, sweeps,
operators and label patches all write to it at once, each by reading rows,
computing new ones, and submitting a transaction whose writes carry version,
status or absence conditions. This project models that protocol and proves
what it keeps over every interleaving, then does the same for the other parts
the service leans on: ordered time keys and paging, the allow-list glob, the
API-key cache and the display-name printer.

## How the protocol is modelled

- `Records`, `Threads`, `Participants`, `Labels`, `Sends`: the rows and what one message, label
  change or send outcome does to them. The loops that build thread states and
  label lists are methods, proved against functions.
- `Plan`: keys, conditions, writes, and the planners; `Keys` shows that the
  structured keys stand for the stored strings.
- `Runs`: a run is the list of committed transactions, in commit order. Each
  carries the rows its writer had read, and each read may come from a different
  earlier moment. What the writer was told about its commit is no part of it.
- `Effects`, `Linear`: rows only grow, so a version check that holds proves an
  old read current; hence every run equals an atomic replay. `Shapes` says once
  what each planner's writes look like.
- `Aliases`, `Replay`, `Races`, `Lookups`: alias rows carry no version. What a
  lookup still says when its insert commits, which runs replay with their
  lookups, the races where one goes out of date, and exactly when it does.
- `Rollups`, `Newest`, `Summaries`, `Sending`, `References`, `Idempotency`,
  `LabelCaps`: invariants of every reachable state.
- `Cancellation`, `Decisions`: decoding a cancelled transaction.
- `Store`, `Calls`, `Flows`, `Mailbox`: the table as one writer meets it, and
  the write flows. Between any two steps of a flow arbitrary other transactions
  commit (`arrivals`), and each of its calls may be throttled, fail, or commit
  and be reported as a retry or an error (`fates`). `Undisturbed` is what each
  flow comes to on a table where none of that happens (`Quiet`). Any error a
  flow reports is one some call of it met, `Conflict`, or a label refusal that
  the rows it read account for.
- `Calendar`, `Timestamps`, `Windows`, `Pages`: time keys, bounds and paging.
- `Glob`, `KeyCache`, `DisplayName`: three self-contained algorithms; `Overlaps` is
  the key cache when requests overlap.

## What a run assumes

These are what the callers establish, and each is a conjunct of `Runs.Legal`.

- Nothing is deleted: TTL expiry is outside the runs.
- New messages start at version 0 with sorted, duplicate-free labels; thread
  lookups use ids without angle brackets, as ingest passes them.
- An enqueue's send state is fresh and its key lives a day from the request
  (`crates/webhook/src/api/send/mod.rs:144-172`).
- `mark_send` itself checks the version only. Which status each outcome is
  recorded from is taken from its callers: the sender and the sweep mark a
  `sending` send, an operator an `unknown` one
  (`crates/webhook/src/mail/sender.rs:190-230`, `:540-720`).
- A sender notes only a state that a committed claim produced.

One theorem assumes more: `Sending.AtMostFivePermits` is for runs whose releases
keep to the sender's cap (`crates/webhook/src/mail/sender.rs:335-366`, `:670-684`).

Strings are sequences of bytes everywhere but in `DisplayNames`, where they are
sequences of characters with UTF-8 lengths. Numbers are unbounded.

## Where a property fails

- Two inserts that list one id can both start a thread.
  `Races.BothStartIffTheyFit` says exactly when two inserts that found nothing
  do: the later one's own id is empty, over 900 bytes or not the earlier one's,
  and no other id it lists, of at most 900 bytes, got a row from the earlier one.
  `Races.ParentAndReplyCanSplit` is such a run, of a reply and then its parent.
  Over any run, `Aliases.SharedIdStartsOneThread` shuts out all but that one case.
- An insert's alias lookup can be out of date when it commits.
  `Races.StalePlaceholderCommits` is such a run for every three messages of a
  kind, and `Races.LateRepliesExist` gives three: a placeholder that was found
  has become a message's own, in another thread, and the insert still joins the
  placeholder's. In terms of the rows at commit, `Lookups.LookupHeldIff` is the
  exact condition. In terms of what the writer itself found,
  `Lookups.CertainIffSure` is: whatever else may commit in between, the lookup is
  certain to hold exactly if no id decides, or the first that does was found as
  a message's own or is the insert's own id, found. So an ingest, which lists
  its own id first, is certain exactly if it found that id
  (`Lookups.OwnIdFirstIsSure`), and where it did not, one further commit can
  mislead it (`Lookups.MissedOwnIdCanFail`).
- `parse` reads signed fields that `format` never writes:
  `Timestamps.ParseRoundTrip` gives the exact condition and
  `Timestamps.SignedFieldIsRead` an instance.
- Alias keys, and the index partitions of threads' messages, can meet: for two
  different inbox ids exactly when one is the other, a `#` and anything
  (`Keys.InboxesMeetIffTheyOverlap`; `Keys.HashInInboxCollides` is an input). All
  other keys and partitions are told apart for every inbox id, and inboxes the
  configuration accepts at one mail domain never meet
  (`Keys.ConfiguredInboxesNeverMeet`).
- The key cache's fetch rate is bounded only once it has loaded. A cold one
  fetches on every request: `KeyCaches.ColdRequestsAllFetch` gives n fetches for
  n requests to a failing source. `KeyCaches.RateIsBounded` adds exactly one
  fetch to the bound for each request of the window that came to a cold cache,
  and `KeyCaches.LoadedRateIsBounded` has none to add once the cache has loaded.
- Nor is it bounded where requests overlap: `Overlaps.RushesFetch` has n requests
  that come at once to a stale cache make n fetches. `Overlaps.CloseFetchesOverlap`
  is the condition: scheduled fetches by a loaded cache that begin less than 30
  seconds apart overlap. Fetches after a miss keep their distance regardless
  (`Overlaps.MissesCollapse`).

## Model

| member | source | states |
|---|---|---|
| `Threads.NewThread` | crates/mailbox/src/thread.rs:164-222 | the thread a first message starts: counts, labels, participants, direction timestamps, first 20 attachments |
| `Threads.ApplyMessage` | crates/mailbox/src/thread.rs:225-273 | the thread after a message joins: labels and counts rolled up, participants added, newest message shown, last 20 attachments |
| `Threads.ApplyLabelPatch` | crates/mailbox/src/thread.rs:281-308 | the thread after a label change, a label leaving the list when its count reaches zero |
| `Threads.CountLabelsAddsOne` | crates/mailbox/src/thread.rs:225-240 | counting a duplicate-free list adds exactly one to each of its labels and to no other |
| `Threads.ReleaseLabelsTakesOne` | crates/mailbox/src/thread.rs:290-304 | releasing labels that have a carrier takes exactly one from each, so the saturating subtraction never saturates, and labels stay the sorted keys of the counts |
| `Labels.PatchLabels` | crates/mailbox-store/src/mailbox.rs:718-745 | the loop computes the patched labels and the changes really made |
| `Labels.PatchedIsChange` | crates/mailbox-store/src/mailbox.rs:718-745 | the reported additions and removals turn the old labels into the new ones, which are sorted and are current plus added minus removed |
| `Labels.LabelChanges` | crates/mailbox/src/send.rs:401-415 | the two difference lists between labels before and after an outcome |
| `Labels.DifferencesAreChange` | crates/mailbox/src/send.rs:401-415 | those lists are an exact description of the change for the thread's counts |
| `Plan.Txn.PutAlias` | crates/mailbox-store/src/plan.rs:303-319 | pushes one first-writer alias under the stripped id, or nothing past 900 bytes |
| `Plan.Txn.PutPlaceholders` | crates/mailbox-store/src/plan.rs:452-460 | pushes a placeholder for every candidate without a row, the message's own id aside |
| `Plan.PlanInsert` | crates/mailbox-store/src/plan.rs:433-463 | the ingest transaction, write by write and condition by condition |
| `Plan.PlanEnqueue` | crates/mailbox-store/src/plan.rs:476-501 | the enqueue transaction, or the label-limit refusal |
| `Plan.PlanMark` | crates/mailbox-store/src/plan.rs:543-605 | the transaction of a send outcome, with both SES aliases and the SES reference |
| `Plan.PlanPatch` | crates/mailbox-store/src/plan.rs:616-633 | the label-patch transaction, or the label-limit refusal |
| `Plan.SoleWriteWins` | crates/mailbox-store/src/memory.rs:237-282 | a row one write of a transaction targets ends as that write alone leaves it |
| `Effects.CommitEffect` | crates/mailbox-store/src/memory.rs:289-351 | away from alias and SES-reference rows, a commit writes exactly the rows its event names |
| `Effects.CommitGrows` | crates/mailbox-store/src/plan.rs:290-296 | every commit keeps every row, never lowers a version, never changes a row without a new version, and never touches a message's own alias |
| `Effects.StaleReadIsFresh` | crates/mailbox-store/src/plan.rs:345-373 | a versioned row read at any earlier moment whose version still matches is the stored row |
| `Linear.ReadsAreCurrent` | crates/mailbox-store/src/mailbox.rs:1-12 | whenever a committing writer read the message, thread and send-state rows it was planned from, they are what is stored when it commits |
| `Linear.RunsAreLinearizable` | crates/mailbox-store/src/mailbox.rs:379-670 | messages, threads, send states and keys of every run equal replaying the committed requests atomically in commit order, an insert into the thread its lookup gave it |
| `Linear.OneWriterPerVersion` | crates/mailbox-store/src/plan.rs:512-529 | no version of a message, thread or send-state row is written by two commits |
| `Linear.EveryVersionHasAWriter` | crates/mailbox-store/src/plan.rs:290-296 | every version up to the stored one was written by some commit |
| `Rollups.RollupsAlwaysAgree` | crates/mailbox/src/thread.rs:164-308 | in every reachable state each thread's message count, size, label counts, labels, timestamps, preview and TTL are those of a recount over its messages |
| `Newest.ShownMessageIsNewest` | crates/mailbox/src/thread.rs:257-269 | the message a thread shows is the last committed of those at its latest timestamp, over any commit order |
| `Summaries.ThreadsSummarise` | crates/mailbox/src/thread.rs:164-273 | every thread counts the messages committed to it, keeps the first one's subject and creation time, and lists the last 20 attachments in commit order, the first message giving only its first 20 |
| `Participants.AddsUp` | crates/mailbox/src/thread.rs:143-160 | a list built from any participants is sorted, at most 50, one entry per mailbox, holds nobody else, never drops an entry, and leaves someone out only when full |
| `Summaries.ParticipantsAreListed` | crates/mailbox/src/thread.rs:164-229 | in every reachable state a thread lists exactly its messages' senders and recipients in that sense |
| `Summaries.ParticipantsStay` | crates/mailbox/src/thread.rs:143-160 | whoever a thread lists at any moment it lists ever after |
| `Summaries.SnapshotsAreHonest` | crates/mailbox-store/src/plan.rs:404-414 | an inbound message's snapshot is its thread exactly as the commit that filed it left it, and stays so |
| `Sends.SettlingOutcomes` | crates/mailbox/src/send.rs:446-460 | an outcome settles exactly when its state is `sent` or `failed`, and only then does the state take the message's TTL |
| `Sending.SendsAlwaysAgree` | crates/mailbox/src/send.rs:296-395 | in every reachable state a queued send has no SES call noted, only a queued one a requeue mark, a TTL is present exactly when settled, and the message exists in the send's thread mirroring its status |
| `Sending.MirrorIsNeverSending` | crates/mailbox/src/send.rs:472-522 | no stored message ever shows `sending` |
| `Sending.IndexListsUnsettled` | crates/mailbox-store/src/plan.rs:216-227 | the status index lists under a status exactly the sends in it that have not settled |
| `Sending.RequeueAlwaysWakesTheSender` | crates/mailbox/src/send.rs:363-395 | every return to `queued` takes `requeued_at` from absent to present and is a release or a resume |
| `Sending.FailuresAreCounted` | crates/mailbox/src/send.rs:368-395 | the stored failure count is the number of releases since the send was enqueued or last resumed |
| `Sending.AtMostFivePermits` | crates/webhook/src/mail/sender.rs:670-684 | where sender and sweep release only below the cap of five failures, a send gets at most five SES-call permits each time it is enqueued or resumed |
| `Sending.QueuedVersionClaimedOnce` | crates/mailbox-store/src/mailbox.rs:482-509 | one queued version is claimed by one sender at most |
| `Sending.ClaimNotedOnce` | crates/mailbox-store/src/mailbox.rs:518-536 | one claim passes the note before the SES call at most once |
| `Sending.PermitsAreBounded` | crates/mailbox-store/src/mailbox.rs:482-536 | over any run a message has at most one SES-call permit more than it was released or resumed |
| `Sending.SecondPermitNeedsHandBack` | crates/mailbox-store/src/mailbox.rs:482-536 | between two permits for one message a release or a resume committed |
| `Aliases.AliasLifeCycle` | crates/mailbox-store/src/memory.rs:315-326 | between any two moments an alias row goes from absent to placeholder to a message's own, never back, and a message's own never changes |
| `Aliases.AliasesAlwaysSound` | crates/mailbox-store/src/plan.rs:303-319 | every alias with a message id names a stored message of the alias's thread, every placeholder a stored thread |
| `Aliases.FoundThreadIsJoined` | crates/mailbox-store/src/mailbox.rs:386-402 | an insert that found an alias joins that existing thread and never starts it over |
| `Aliases.SharedIdStartsOneThread` | crates/mailbox-store/src/mailbox.rs:386-417 | in any run, two inserts listing one id of at most 900 bytes both start a thread only if the id is the later one's own and not the earlier one's |
| `Aliases.LookupAtCommit` | crates/mailbox-store/src/mailbox.rs:386-417 | per candidate, what an insert's lookup found against the row at its commit: a miss is still one, or the own id's is a placeholder; a message's own alias is unchanged; a placeholder is unchanged or now a message's own, never for the own id |
| `Races.BothStartIffTheyFit` | crates/mailbox-store/src/plan.rs:444-460 | for all messages and lists, two inserts that found nothing both commit, each starting its thread, exactly when the later one's own id is not the earlier one's and no other id it lists got a row |
| `Races.StalePlaceholderCommits` | crates/mailbox-store/src/plan.rs:444-460 | a family of runs in which an insert joins the thread of a placeholder that by then is a message's own in another thread |
| `Lookups.LookupHeldIff` | crates/mailbox-store/src/mailbox.rs:386-402 | for every insert that commits: its lookup still files it in the same thread exactly if the deciding row, the own id's where that got one ahead of all found, else the first one found, names that thread |
| `Lookups.CertainIffSure` | crates/mailbox-store/src/mailbox.rs:386-402 | for every insert whose deciding row is still as it found it: its lookup holds whatever commits in between exactly if nothing decides, or a message's own alias or its own id was found |
| `Lookups.OwnIdFirstIsSure` | crates/webhook/src/mail/ingest.rs:566-580 | an insert that lists its own id of 1 to 900 bytes first is certain exactly if it found it |
| `Lookups.MissedOwnIdCanFail` | crates/webhook/src/mail/ingest.rs:566-580 | where it did not, and the row is still absent, some one further commit makes its lookup wrong and lets it commit |
| `Replay.LookupHeldUnlessDrifted` | crates/mailbox-store/src/mailbox.rs:386-402 | only a placeholder turned into a message's own, or an unguarded own id, makes a lookup out of date at commit |
| `Replay.OwnHitHolds` | crates/mailbox-store/src/mailbox.rs:386-402 | an insert that found a row for its own id first joins the thread it would join now |
| `Replay.RunsReplayWhole` | crates/mailbox-store/src/mailbox.rs:379-670 | serving a run's calls one at a time, each reading its own rows, leaves the run's whole table at every moment, aliases and references included, exactly if every lookup held |
| `Races.ParentAndReplyCanSplit` | crates/mailbox-store/src/plan.rs:444-450 | a run in which a reply and its parent end up in two threads |
| `Aliases.DroppedAliasesLoseNothing` | crates/mailbox-store/src/txn.rs:187-192 | every alias an enqueue or mark set out to write names a message once it commits, and a dropped one already did |
| `References.RefsAlwaysSound` | crates/mailbox-store/src/plan.rs:584-600 | every stored SES reference names a stored message |
| `Idempotency.KeyReusedOnlyAfterExpiry` | crates/mailbox-store/src/plan.rs:476-498 | two committed enqueues under one key hash: the later request came after the earlier key's expiry, over a day later |
| `Idempotency.KeysAlwaysNameMessages` | crates/mailbox-store/src/plan.rs:488-498 | every stored key names a stored message, in the thread the key names |
| `LabelCaps.UserLabelsStayCapped` | crates/mailbox-store/src/plan.rs:641-660 | if inbound inserts carry system labels only, every reachable message and thread has at most 20 of the caller's labels |
| `LabelCaps.OnlyNewUserLabelsAreRefused` | crates/mailbox-store/src/plan.rs:635-660 | inbound mail, send outcomes and patches that add no label of the caller's are never refused for labels |
| `Cancellation.CollectTaken` | crates/mailbox-store/src/txn.rs:174-184 | the alias keys whose first-writer check failed |
| `Cancellation.DecodeCancellation` | crates/mailbox-store/src/txn.rs:110-170 | the scans reach the decision that the precedence rules give |
| `Cancellation.DropTakenAliases` | crates/mailbox-store/src/txn.rs:187-192 | the plan without the alias writes for taken keys |
| `Cancellation.OrdinaryCancellationsAreNeverPermanent` | crates/mailbox-store/src/txn.rs:110-170 | for every plan the planners build, failed checks and retryable reasons decode to permanent exactly when there is no reason at all |
| `Cancellation.OnlyEnqueueSeesKeyExists` | crates/mailbox-store/src/txn.rs:117-126 | only an enqueue that carries a key can be told its key exists |
| `Cancellation.AliasTakenCanCommitWithout` | crates/mailbox-store/src/txn.rs:154-165 | taken aliases are rows that exist, and without just those writes the same transaction commits on the same table |
| `Decisions.KeyExistsIsStored` | crates/mailbox-store/src/memory.rs:202-210 | an enqueue told its key exists met an unexpired key row |
| `Decisions.InsertDuplicateIsStored` | crates/mailbox-store/src/txn.rs:129-137 | an insert told it is a duplicate met its own stored message |
| `Calls.CallCommitsOnce` | crates/mailbox-store/src/dynamo_table.rs:560-571 | however often it is retried, an insert, enqueue, note or mark commits at most once |
| `Store.Table.CheckAll` | crates/mailbox-store/src/memory.rs:329-341 | one reason per write, failed exactly where the write's condition fails |
| `Store.Table.Attempt` | crates/mailbox-store/src/memory.rs:289-351 | all writes are applied exactly when all conditions hold, else none and the decoded decision |
| `Store.Table.Transact` | crates/mailbox-store/src/dynamo_table.rs:537-575 | a transaction commits exactly when all its conditions hold on the rows it meets and its call goes through, and a call that is answered is answered with that; only `Committed` says that it committed, only a decision other than `Retry` that it did not |
| `Mailboxes.Mailbox.ReadAliases` | crates/mailbox-store/src/mailbox.rs:340-363 | each candidate's alias row as it was at some moment of the lookup |
| `Mailboxes.Mailbox.InsertMessage` | crates/mailbox-store/src/mailbox.rs:379-417 | commits at most once whatever it is told; `Fresh` is its own newest commit, a duplicate is stored, `Conflict` is four cancelled attempts, and any other error is one a call of it met; undisturbed, a duplicate exactly when the message is stored, else fresh, or, if the caller did not list the message's own id and it is another message's, given up after four tries |
| `Undisturbed.InsertJudged` | crates/mailbox-store/src/mailbox.rs:379-417 | how the insert planned from the stored rows is judged by them |
| `Mailboxes.Mailbox.EnqueueSend` | crates/mailbox-store/src/mailbox.rs:429-473 | queues at most once; a key reported in use is live; `Conflict` is four cancelled attempts; undisturbed, the label caps, then a live key, then a stored message or state decide, and otherwise it is queued, at the second attempt if an alias was taken |
| `Undisturbed.EnqueueJudged` | crates/mailbox-store/src/mailbox.rs:429-473 | how the enqueue planned from the stored rows is judged by them: key first, then duplicate, and past those only an alias can be taken |
| `Mailboxes.Mailbox.ClaimSend` | crates/mailbox-store/src/mailbox.rs:482-509 | a returned state was claimed by its own newest commit; `None` means nothing queued; `Conflict` is four cancelled attempts; undisturbed, it claims exactly what is queued |
| `Flows.ClaimMayBeNoted` | crates/webhook/src/mail/sender.rs:418-480 | what a claim returned is what a note may be given, then or after any further commits |
| `Mailboxes.Mailbox.NoteSesCall` | crates/mailbox-store/src/mailbox.rs:518-536 | a permit is given only for its own commit, at most once; `None` means the claim is gone; `Conflict` is four cancelled attempts; undisturbed, the permit is given exactly when the claimed state is still stored |
| `Mailboxes.Mailbox.MarkSend` | crates/mailbox-store/src/mailbox.rs:546-614 | commits at most once, and the errors for a missing message or thread are unreachable; `Conflict` is a moved version or four cancelled attempts; undisturbed, the outcome is recorded exactly when the stored version is the one given |
| `Undisturbed.MarkJudged` | crates/mailbox-store/src/mailbox.rs:546-614 | how the mark planned from the stored rows is judged by them: a moved version refuses it, and past that only an alias can be taken |
| `Mailboxes.Mailbox.UpdateLabels` | crates/mailbox-store/src/mailbox.rs:625-670 | returned labels are what its own newest commit of this patch stored on this message, or what the message had where nothing changes; `Conflict` is four cancelled attempts; undisturbed, the stored message, the patch and the caps alone decide |
| `Keys.RenderedIsInjective` | crates/mailbox-store/src/keys.rs:36-126 | for every inbox id, two rows share a primary key only as aliases of inbox ids one of which is the other, a `#` and more |
| `Keys.PartitionsAreInjective` | crates/mailbox-store/src/keys.rs:128-163 | for every inbox id, two listings share an index partition only as threads' messages of such inbox ids |
| `Keys.AliasesMeet` | crates/mailbox-store/src/keys.rs:89-94 | exactly which aliases share a key |
| `Keys.InboxesMeetIffTheyOverlap` | crates/mailbox-store/src/keys.rs:89-147 | two different inbox ids can share an alias key, or a thread's listing, exactly when one is the other, a `#` and more |
| `Keys.ConfiguredInboxesNeverMeet` | crates/webhook/src/config.rs:199-213 | inboxes the configuration accepts at one mail domain never share either |
| `Keys.HashInInboxCollides` | crates/mailbox-store/src/keys.rs:89-147 | an input at which two aliases share a key and two threads a listing |
| `Calendar.DaysRoundTrip` | crates/mailbox/src/time.rs:132-154 | every day has a real date, its day within the month, and converts back to the same day |
| `Calendar.DateRoundTrip` | crates/mailbox/src/time.rs:120-129 | every date converts to a day and back to the same date |
| `Calendar.DaysAscend` | crates/mailbox/src/time.rs:132-154 | later days have later dates |
| `Timestamps.FormatRoundTrip` | crates/mailbox/src/time.rs:43-98 | up to year 9999 every instant is written in 24 bytes and read back exactly |
| `Timestamps.ParseRoundTrip` | crates/mailbox/src/time.rs:64-98 | a string that is read is written the same way exactly when its fields are digits only |
| `Timestamps.SignedFieldIsRead` | crates/mailbox/src/time.rs:78-84 | a signed field is read and written without its sign |
| `Timestamps.FormatKeepsOrder` | crates/mailbox/src/time.rs:43-56 | up to year 9999 timestamps sort exactly as their instants |
| `Windows.PrefixKeepsOrder` | crates/mailbox/src/ids.rs:73-75 | below 2^48 time prefixes sort exactly as their milliseconds |
| `Windows.MessageWindowIsExact` | crates/webhook/src/api/pagination.rs:121-134 | the string bounds select exactly the ids minted in `[after, before)` |
| `Windows.ThreadWindowIsExact` | crates/webhook/src/api/pagination.rs:136-145 | the string bounds select exactly the threads last active in `[after, before)` |
| `Pages.QueryPage` | crates/mailbox-store/src/memory.rs:357-431 | one page: the first `limit` entries of the sorted listing past the start, with a continuation exactly when it is full |
| `Pages.Fill` | crates/webhook/src/api/read.rs:46-87 | at most `limit` entries, all the accepted ones of a stretch of the listing, and a continuation that resumes right behind it; a page that is short yet goes on has covered all five queries' worth; it fails exactly when a query it makes fails, and makes one more only where those before found too few |
| `Pages.Walk` | crates/webhook/src/api/read.rs:46-87 | following continuations ends and returns every accepted entry once and in order, no page over the limit |
| `Glob.GlobMatch` | crates/webhook/src/allowlist.rs:75-100 | true exactly when replacing each star by some string gives the value |
| `Glob.LeftmostIsEnough` | crates/webhook/src/allowlist.rs:90-98 | taking the leftmost place of a segment loses no match |
| `KeyCaches.KeyCache.Verify` | crates/webhook/src/api/keys.rs:126-152 | the keys cached after a request are those of its last successful fetch, else the old ones, and they alone give the verdict: only a digest none of them has is denied, only a cache that never loaded is unavailable |
| `KeyCaches.KeyCache.Refresh` | crates/webhook/src/api/keys.rs:186-237 | a success replaces the keys and arms the gate; a failure keeps the cached keys, re-arms the gate if its request had found keys, and never moves it back |
| `KeyCaches.GateNeverMovesBack` | crates/webhook/src/api/keys.rs:186-237 | over any run of requests, once armed, the scheduled gate is never earlier than it was |
| `KeyCaches.RunsStaySound` | crates/webhook/src/api/keys.rs:126-237 | whatever the requests and however the source fails, scheduled fetches by a loaded cache, and fetches after a miss, stay 30 seconds apart |
| `KeyCaches.RateIsBounded` | crates/webhook/src/api/keys.rs:126-237 | after any run of requests, any window of W seconds holds at most 2(W/30 + 1) fetches more than requests that came to a cold cache, and no fewer than those |
| `KeyCaches.LoadedRateIsBounded` | crates/webhook/src/api/keys.rs:126-237 | once the cache has loaded, at most 2(W/30 + 1) fetches of any kind |
| `KeyCaches.ColdRequestsAllFetch` | crates/webhook/src/api/keys.rs:126-134 | n requests to a cold cache whose source fails make n fetches and leave it cold |
| `Overlaps.GatesNeverMoveBack` | crates/webhook/src/api/keys.rs:154-237 | however requests overlap, keys and gates are never lost and no gate moves back |
| `Overlaps.CloseFetchesOverlap` | crates/webhook/src/api/keys.rs:154-237 | scheduled fetches by a loaded cache that begin less than 30 seconds apart overlap: the first had not landed |
| `Overlaps.MissesCollapse` | crates/webhook/src/api/keys.rs:165-180 | fetches after a miss are 30 seconds apart, however many requests miss at once |
| `Overlaps.RushesFetch` | crates/webhook/src/api/keys.rs:126-163 | n requests that come at once to a stale cache make n fetches |
| `KeyCaches.FetchRateBound` | crates/webhook/src/api/keys.rs:126-237 | the same bound for any log of fetches that keep their two gates |
| `KeyCaches.MatchKey` | crates/webhook/src/api/keys.rs:241-249 | the last key with the digest, found without an early exit |
| `KeyCaches.MatchIsConfigured` | crates/webhook/src/api/keys.rs:241-249 | an accepted id belongs to a configured key with the presented digest |
| `KeyCaches.DeniedIsUnknown` | crates/webhook/src/api/keys.rs:126-152 | a digest is denied exactly when no configured key has it |
| `DisplayNames.QuotedReadsBack` | crates/mailbox/src/mime.rs:226-249 | every string survives being quoted and read per section 3.2.4 of RFC 5322 |
| `DisplayNames.Quote` | crates/mailbox/src/mime.rs:237-248 | the quoted form of the longest prefix of the name that fits the budget |
| `DisplayNames.DisplayName` | crates/mailbox/src/mime.rs:226-249 | a phrase of at most the budget that shows as much of the clean name as fits, or nothing where nothing does |
| `DisplayNames.PhraseIsDetermined` | crates/mailbox/src/mime.rs:226-249 | a budget leaves one way to print a name |
| `DisplayNames.NameIsShown` | crates/mailbox/src/mime.rs:226-249 | a name whose phrase fits is shown whole, and none is shown exactly when not even its first character fits |
| `DisplayNames.PhraseReadsBack` | crates/mailbox/src/mime.rs:226-249 | a quoted phrase reads back to that prefix, an unquoted one is that prefix and holds no special |
| `DisplayNames.FormatAddr` | crates/mailbox/src/mime.rs:204-215 | at most 320 bytes, the address whole wherever a name is shown, and beside it as much of the name as fits; a name is left out only if the address fills the limit or nothing of it fits |
| `DisplayNames.AddressReadsBack` | crates/mailbox/src/mime.rs:194-215 | an address without angle brackets is read back whole, however its name is shown |

## Left out

- TTL deletion: rows that expire would leave recounts and aliases behind by design, so runs have none.
- The address parser: a participant carries the mailbox its text parses to, if it does.
- `Linear.RunsAreLinearizable`: an insert's request names the thread its lookup found, because that lookup is not guarded by the commit; `Replay.RunsReplayWhole` replays the lookup too, exactly where it held.
- `Aliases.LookupAtCommit`: says nothing of an empty candidate of a message without an id of its own, for which no row is written or checked.
- Message fields no flow computes with (headers, raw object keys, delivery fields): carried along unchanged by the program.
- Inbox rows, `ensure_inbox`, and the single-row reads: one conditional put and plain lookups.
- SDK rendering and error classification in `dynamo_table.rs` and `sdk_error.rs`: replaced by the abstract table and its fates.
- `Store.Table.Attempt`: the in-memory double's injected `KeyExists` answer is left out; no real table gives it to a transaction whose key is free.
- Serialised forms, base64 page tokens and SHA-256 ids: library behaviour; page keys are the sort keys they wrap.
- `Pages.Fill`: one fixed partition with distinct sort keys.
- `Mailboxes.Mailbox.ReadAliases`: reads the rows one by one, so it allows every answer of the batch read and more.
- `KeyCaches.KeyCache.Verify`: one request from start to end, `Overlaps` has the turns of several; a clock too young to subtract four and a half minutes from is not modelled.
- The list-request parser, filters, the allow-list's account entries, routing, metrics and logging: single-branch mappings.
- MIME parsing, stream and event publishing, signature checks: external formats, cryptography and I/O.
- Pauses between attempts: they change when a retry happens, which the arbitrary arrivals already cover.
