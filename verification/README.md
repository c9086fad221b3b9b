# Verified core of the API gateway

A Dafny model of the stateful cores of an API gateway written in Go: order locking and payment webhooks,
price synchronisation, upstream model sync, the relay retry loops, the billing session, the rate limiter, the Ogg
scanner, multi-key channels, request body storage, verification codes, step-up verification and quota conversion.
Each module models one component and proves what holds over every run of it. `dafny verify dfyconfig.toml`
checks all modules.

How the modules are built:

- Concurrent and long-lived code is a state machine: a state, the events that can happen, and a run as a
  sequence of events. Invariants are proved step by step and then for every run.
- Code that updates variables in place is a class or a method with loops. Its contract ties the new state to a
  specification function, and the lemmas are about that function.
- Where a promise does not hold on all inputs, the exact condition is proved in both directions.
- Every induction is written out: a lemma to which Dafny would apply automatic induction carries `{:induction false}`.

What the proofs found:

- **Order lock** (`OrderLock`). For any number of threads the lock is mutually exclusive per trade number, finds
  its own mutex again without the second lock, never deadlocks and leaves no entry behind. Seen through who holds
  what, it is a plain lock.
- **Payments** (`Payments`). The failed-payment handler reads, checks and writes in separate steps under a lock that
  lives in one process, and a Waffo payment request that the gateway refuses saves its row again without any lock.
  All runs are safe exactly when at most one process serves the gateway and no Waffo payment can be requested. A
  single run on one process is safe exactly if every such late save meets a row that is still pending. A refused
  Pancake subscription checkout does the same to its order: no subscription is granted twice, but orders show success
  exactly if they were granted only while no such save comes after the completion.
- **Price differences** (`PriceDiff`). The four passes equal a definition without passes or order. An explicit
  null, or the literal text "same", is the only way in which pruning changes what is listed.
- **Upstream sync** (`UpstreamSync`). Staged changes fit the channel over every run exactly when no provider name
  falls apart, at its commas, into another provider name. Detecting, applying everything and detecting again finds
  nothing exactly when the added names have no commas and no ignore entry that is itself being added hides a model.
  A models column in normal form stays so over every run exactly when no provider name has a comma. Redirect sources
  stay; redirect targets stay out exactly when no other provider name falls apart into one.
- **Relay** (`Relay`). The configured retries plus one is the limit on attempts exactly when there is no further
  automatic group to move on to, or no retry at all, or RelayTask is pinned to a channel. Otherwise cross-group
  retries allow that number for every group; without them every group gets the retries and the last one an attempt
  more. Both limits are reached. A client that is gone before the first iteration leaves the error empty: `Relay` ends
  without success or refund, and `RelayTask` dereferences a missing result.
- **Billing session** (`Billing`). Whatever calls fail, both accounts are explained to the unit. A settlement does not
  look at the refund mark, so settling after a refund charges too little; `RelayTask` never does both.
- **Rate limiter** (`RateLimit`). With one policy it agrees with the full history exactly when the window is at most
  one second longer than the eviction age; the comment in common/constants.go asks for "not larger". With any number
  of policies, one after another, it does exactly if every window fits, and of every two the later limit is not smaller
  and, if it is larger, comes with a window that is not.
- **Ogg scanner** (`OggScan`). It takes exactly the pages if and only if the bytes between them contain no capture
  pattern that starts a full header.
- **Multi-key channels** (`MultiKey`). A deletion removes what it should exactly when the remaining keys survive
  being written as lines. Otherwise a disabling time and reason can be left behind for a key number that no longer
  exists, exactly when a remaining key beyond the stored count carries one. When all keys are automatically disabled,
  deleting them keeps all of them and enables them. No action assumes that size and states fit the keys; enabling
  all keys always brings them back in step, except that an empty JSON array counts as one key.
- **Verification codes** (`CodeStore`). Size eviction drops an oldest entry unless the empty key is the oldest one,
  because the scan uses the empty key for "none yet"; it drops the oldest entries as long as there are enough entries
  no younger than the empty key. The purposes in use never give an empty key.
- **Body storage** (`BodyStorage`). Memory and disk differ only on a read into an empty buffer at or behind the end.
- **Quota conversion** (`QuotaMath`). A value of exactly the largest quota is reported as clamped although it is
  representable; the comment in common/quota_math.go speaks of values outside the range.

Assumptions that stand for code or systems outside the model:

- `OrderLock`: a thread unlocks only what it locked; the Go mutexes and the concurrent map are atomic steps.
- `Payments`: a database call is one transaction that either happens or fails without effect; a trade number is
  new in both order tables when an order is placed.
- `PriceDiff`, `ModelsDev`: prices are reals; channel names are distinct.
- `UpstreamSync`: a regular expression of the ignore list is any predicate; redirects arrive parsed and trimmed.
- `Relay`: what an iteration observes is arbitrary; an attempt sets the channel data of the request; the group list
  does not change during a request.
- `Billing`: a call that moves quota either happens or fails without effect; a subscription takes what it is asked for.
- `RateLimit`, `CodeStore`, `StepUp`: the clock does not run backwards, where a lemma says so.
- `StepUp`: the session is held by the server and its requests come one after another.
- `BodyStorage`: no I/O errors; a file read fills the buffer as far as there is data.
- `MultiKey`: reading a key text as a JSON array is any function of the text.

## Model

| member | source | states |
|---|---|---|
| `OrderLock.StepKeepsInv` | controller/topup.go:306-346 | every atomic step of any thread keeps the invariant linking threads, entries, reference counts and holders |
| `OrderLock.RunKeepsInv` | controller/topup.go:306-346 | the invariant holds at the end of every run from the empty table |
| `OrderLock.MutualExclusion` | controller/topup.go:317-346 | in every run at most one thread is between lock and unlock of a trade number |
| `OrderLock.UnlockFindsItsMutex` | controller/topup.go:332-338 | the unlocked Load always finds the very mutex its thread locked, so no mutex is leaked and none is unlocked twice |
| `OrderLock.RefCountCountsUsers` | controller/topup.go:317-346 | refCount is the number of threads between increment and decrement; outside createLock an entry exists exactly while that is positive |
| `OrderLock.QuiescentTableIsEmpty` | controller/topup.go:339-346 | once no thread is inside, the table is empty and createLock is free |
| `OrderLock.SomeThreadCanStep` | controller/topup.go:317-346 | no deadlock: while a thread is inside, some thread can move |
| `OrderLock.StepRefinesSpec` | controller/topup.go:317-346 | only Lock and Unlock of the order's mutex are visible, as taking a free lock and its owner giving it back |
| `OrderLock.RunRefinesSpec` | controller/topup.go:317-346 | every run is a run of a plain lock per trade number |
| `OrderLock.LockTable.CallLockOrder` | controller/topup.go:317-318 | a thread enters LockOrder; the invariant is kept |
| `OrderLock.LockTable.AdvanceLock` | controller/topup.go:317-330 | each statement of LockOrder is the corresponding step on the shared variables, in every state, and keeps the invariant where it holds |
| `OrderLock.LockTable.AdvanceUnlock` | controller/topup.go:332-346 | each statement of UnlockOrder, with its early return and the unlock that panics, is the corresponding step on the shared variables, in every state, and keeps the invariant where it holds |
| `Payments.CallOk` | controller/topup_stripe.go:222-327 | a database call of a lock holder with a current snapshot keeps every order consistent and touches only its own order |
| `Payments.CompleteSubscriptionOk` | model/subscription.go:582-713 | completing a subscription order keeps every order consistent in all its branches |
| `Payments.RunKeepsInv` | controller/topup_stripe.go:192-327 | on one process every interleaving of handlers, requests, reconciliations and administrator calls whose stale saves come in time keeps orders, ledger, locks and snapshots consistent |
| `Payments.OneProcessIsSafe` | controller/topup_stripe.go:222-327 | on one process with timely saves an order leaves pending at most once, is credited at most once and granted at most once; a top-up is credited exactly when it ended in success, a subscription order granted exactly when it is mirrored |
| `Payments.FinishedStays` | controller/topup_creem.go:287-360 | under the same condition a finished order keeps its row through every later event |
| `Payments.SafeIffTimely` | controller/topup_waffo.go:231-295 | on one process a run is safe for all orders if and only if every refused Waffo request saves its row while the order is pending |
| `Payments.GrantsShownIffPrompt` | controller/subscription_payment_waffo_pancake.go:76-117 | on one process with timely saves, subscription orders show success exactly if they were granted, if and only if no refused checkout saves its order after the completion |
| `Payments.RefusalHidesGrant` | controller/subscription_payment_waffo_pancake.go:98-117 | a run in which a granted subscription order ends as failed |
| `Payments.UnlockedIsGood` | service/epay_reconcile.go:113-148 | reconciliations, expired purchases, refused checkouts and timely late saves, all without the lock, keep every order consistent and touch only their own |
| `Payments.WaffoIsUnsafe` | controller/topup_waffo_pancake.go:385-410 | on any process a run with one Waffo request overwrites an order that the administrator completed meanwhile |
| `Payments.RaceIsUnsafe` | controller/topup_stripe.go:231-256 | with two processes a run, from no orders at all, overwrites a credited order with failed |
| `Payments.SafeExactlyOnOneProcess` | controller/topup_stripe.go:222-256 | all runs are safe if and only if at most one process serves the gateway and no Waffo payment can be requested |
| `Payments.OrderStore.RechargeOrder` | model/topup.go:176-234 | credits exactly when it succeeds, and only a pending order of its provider; every order stays consistent |
| `Payments.OrderStore.UpdatePendingTopUpStatus` | model/topup.go:149-174 | succeeds exactly for a pending order of its provider; every order stays consistent |
| `Payments.OrderStore.CompleteSubscriptionOrder` | model/subscription.go:582-713 | grants at most once and mirrors the order as a finished row without quota |
| `PriceDiff.CompareChannels` | controller/ratio_sync.go:607-654 | one price's item holds every channel's view, and is included exactly when some channel's value counts as unequal or new |
| `PriceDiff.FirstPass` | controller/ratio_sync.go:553-666 | the first pass yields the included prices of every known model, whatever the map order |
| `PriceDiff.ChannelsWithDiff` | controller/ratio_sync.go:668-677 | finds exactly the channels that show a value other than "same" in some item |
| `PriceDiff.Prune` | controller/ratio_sync.go:679-707 | pruning keeps exactly the items with a differing view among the remaining channels, and no empty model |
| `PriceDiff.BuildDifferences` | controller/ratio_sync.go:548-708 | the result is the one the order-free definition describes |
| `PriceDiff.ShownSetIsDiffering` | controller/ratio_sync.go:668-677 | the channels kept are exactly those that differ somewhere |
| `PriceDiff.PrunedIsExpected` | controller/ratio_sync.go:679-707 | the pruned first pass satisfies the definition |
| `PriceDiff.DiffersMeans` | controller/ratio_sync.go:50-64 | a channel differs exactly when it supplies a value, not "same", that is unequal within tolerance |
| `PriceDiff.ListedIff` | controller/ratio_sync.go:607-707 | for every input, exactly which prices are listed, including null and "same" values |
| `PriceDiff.ListedIffSupplied` | controller/ratio_sync.go:643-707 | without null and "same" values, listed means included: pruning drops no item |
| `PriceDiff.NullIsPruned` | controller/ratio_sync.go:679-707 | an explicit null price is included and then pruned |
| `PriceDiff.ExpectedIsUnique` | controller/ratio_sync.go:548-708 | the definition has exactly one solution, so map order cannot matter |
| `PriceDiff.OrderDoesNotMatter` | controller/ratio_sync.go:548-552 | the order in which channels arrive does not matter |
| `ModelsDev.ReplaceKeepsBest` | controller/ratio_sync.go:893-905 | replacing never gives up what the earlier candidate was better than, although the tolerance is not transitive |
| `ModelsDev.Select` | controller/ratio_sync.go:933-956 | the selection loops hold, for each model, the pick of the provider scan, whatever the inner map order |
| `ModelsDev.PickIsCheapest` | controller/ratio_sync.go:850-905 | something is picked exactly if an offer is valid; no offer undercuts it by the tolerance; it is free only if all offers are |
| `TextList.SplitJoin` | model/channel.go:289-294 | splitting a joined list of separator-free items gives the list back |
| `TextList.SplitAppend` | model/channel.go:289-294 | splitting at a separator splits each side |
| `TextList.ReadBackIffClean` | model/channel.go:175-197 | join then trim and split is the identity exactly on lists of separator-free items with non-blank ends |
| `ModelNames.NormalizeIsClean` | controller/channel_upstream_update.go:94-99 | normalised lists are trimmed, non-empty-named and duplicate free |
| `ModelNames.NormalizeClean` | controller/channel_upstream_update.go:94-99 | normal lists are left alone, order included |
| `ModelNames.MergeAppends` | controller/channel_upstream_update.go:101-115 | merging keeps the base in place and appends exactly the new names in order |
| `ModelNames.MergeModelNames` | controller/channel_upstream_update.go:101-115 | the loop over a seen-set computes the normal form of the two lists joined |
| `ModelNames.SubtractMeans` | controller/channel_upstream_update.go:117-126 | membership of a difference, in normal form |
| `ModelNames.IntersectMeans` | controller/channel_upstream_update.go:128-137 | membership of an intersection, in normal form |
| `ModelNames.ApplySelectedMeans` | controller/channel_upstream_update.go:139-144 | an added name is in the result even when it is also removed |
| `ModelNames.LocalOfAnyJoin` | model/channel.go:289-294 | the models read after any list was joined into the column are the comma-separated parts of its names |
| `UpstreamSync.PendingAddMeans` | controller/channel_upstream_update.go:173-221 | additions are exactly provider names that are not local, not redirect targets and not ignored |
| `UpstreamSync.PendingRemoveMeans` | controller/channel_upstream_update.go:222-231 | removals are exactly local names the provider lacks that are not redirect sources |
| `UpstreamSync.DetectStages` | controller/channel_upstream_update.go:357-404 | after any successful detection, additions are new, removals exist and both lists are in normal form |
| `UpstreamSync.ApplyModels` | controller/channel_upstream_update.go:809-857 | name by name, the models after applying a selection |
| `UpstreamSync.ApplyPending` | controller/channel_upstream_update.go:809-857 | name by name, what stays pending after applying and ignoring |
| `UpstreamSync.ApplyStages` | controller/channel_upstream_update.go:809-857 | applying any selection keeps the staged changes fitting |
| `UpstreamSync.AlwaysStagedIffSeparate` | controller/channel_upstream_update.go:357-404 | over all runs after a successful detection the staged changes fit, if and only if no provider name falls apart into another |
| `UpstreamSync.PlainIsAlwaysStaged` | controller/channel_upstream_update.go:357-404 | in particular the staged changes always fit with comma-free provider lists |
| `UpstreamSync.StaysCleanIffPlain` | controller/channel_upstream_update.go:139-144 | over all runs after a detection a models column in normal form stays in normal form, if and only if no provider name has a comma |
| `UpstreamSync.ApplyCleansIgnored` | controller/channel_upstream_update.go:826-838 | applying leaves the ignore list trimmed, non-empty-named and duplicate free, whatever was stored |
| `UpstreamSync.RunCleansIgnored` | controller/channel_upstream_update.go:826-838 | from the first apply of a run on, the ignore list is in normal form |
| `UpstreamSync.SettlesIff` | controller/channel_upstream_update.go:809-857 | detect, apply all, detect again finds nothing, if and only if added names have no comma and there is no hole in the ignore list |
| `UpstreamSync.Settles` | controller/channel_upstream_update.go:905-915 | with comma-free names not starting with "regex:" it always settles, and a further apply changes nothing |
| `UpstreamSync.RedirectsAreKept` | controller/channel_upstream_update.go:173-232 | after a detection and any selection redirect sources stay; with comma-free provider names everything new is a provider name that is neither a redirect target nor ignored |
| `UpstreamSync.SourcesStay` | controller/channel_upstream_update.go:222-231 | under a fixed redirect map no run after a detection removes a redirect source |
| `UpstreamSync.TargetsNeverAddedIff` | controller/channel_upstream_update.go:173-221 | under a fixed redirect map no run after a detection adds a redirect target, if and only if no other provider name falls apart into one |
| `UpstreamSync.AutoAddIsNew` | controller/channel_upstream_update.go:381-388 | auto-sync appends exactly the pending names, all of them new |
| `UpstreamSync.CheckRow` | controller/channel_upstream_update.go:364-404 | the statements of a check compute the specified detection and count the adopted names |
| `UpstreamSync.ChannelRecord.Persist` | controller/channel_upstream_update.go:346-355 | models are written only when asked for; a failed update changes nothing |
| `UpstreamSync.ChannelRecord.CheckAndPersist` | controller/channel_upstream_update.go:357-404 | skips within the interval, otherwise stores the detection; the reported count is the number of adopted names |
| `UpstreamSync.ChannelRecord.ApplyUpdates` | controller/channel_upstream_update.go:809-857 | stores the applied selection, or nothing when the update fails |
| `Relay.RetryDecisions` | controller/relay.go:395-425 | an error is retried exactly if it is of a retriable kind, affinity allows it, and retries are left or it is a channel error of Relay |
| `Relay.CacheGetRandomSatisfiedChannel` | service/channel_select.go:84-175 | the channel is that of the first group from the current one on whose pick succeeds, none exactly if all fail; the selector moves on exactly when that group is used up |
| `Relay.SelectionSpends` | service/channel_select.go:104-160 | every successful selection uses up budget although it may reset the retry counter |
| `Relay.TurnSpends` | controller/relay.go:221-293 | an iteration after which the loop goes on leaves strictly less budget, so the loop ends |
| `Relay.AttemptBound` | controller/relay.go:221-293 | at most RetryTimes + 1 attempts for every group the request can draw on with cross-group retries, RetryTimes for every group and one more without them |
| `Relay.BoundIsReached` | service/channel_select.go:84-175 | both bounds are attained by a run |
| `Relay.MovingOn` | service/channel_select.go:114-127 | with a second group, a run makes RetryTimes + 2 attempts |
| `Relay.RetriesPlusOneIff` | controller/relay.go:221-293 | at most RetryTimes + 1 attempts, exactly without a group to move to, without retries, or for a pinned RelayTask request |
| `Relay.RunIsWellFormed` | controller/relay.go:221-293 | every iteration but the last was a local skip or a failed attempt with a retriable error and no semantic output |
| `Relay.NoErrorIffSuccess` | controller/relay.go:221-296 | a run that reaches selection ends without error exactly if its last attempt succeeded; otherwise it makes no attempt and has no error |
| `Relay.NothingAfterTheEnd` | controller/relay.go:270-289 | no iteration follows a success, an observed disconnect, semantic output or an error that is not retriable |
| `Relay.RelayBody` | controller/relay.go:222-289 | the loop body's variables always reflect the log of iterations: error, used channels and both flags |
| `Relay.Relay` | controller/relay.go:198-308 | the used-channel trace is the list of attempts; with billing, exactly one refund unless the last attempt succeeded |
| `Relay.TaskBody` | controller/relay.go:593-659 | the same for the loop of RelayTask, with a locked channel |
| `Relay.RelayTask` | controller/relay.go:574-702 | settles exactly once, with the last submission's quota, if it succeeded, otherwise refunds exactly once when billing exists, never both; crashes exactly if selection was not reached |
| `Billing.OpenedIsBalanced` | service/billing_session.go:186-230 | opening takes the same amount from funding and token or, when it fails and rolls back, nothing; from there on every run is balanced |
| `Billing.RunIsBalanced` | service/billing_session.go:41-178 | over every run of reservations, settlements and refunds, with any calls failing, both accounts are explained to the unit |
| `Billing.NetCharge` | service/billing_session.go:41-145 | a settled session nets the actual cost on both accounts if and only if it was not refunded before; a refunded one nets nothing |
| `Billing.DoKeepsBalance` | service/billing_session.go:41-178 | every operation, whatever fails in it, keeps the account of what was taken |
| `Billing.SettleAfterRefund` | service/billing_session.go:41-79 | settling after a refund charges only the difference to what was given back |
| `Billing.BillingSession.ReserveQuota` | service/billing_session.go:152-178 | takes the difference from both sides or, with its rollback, from neither; nothing once settled, refunded or trusted |
| `Billing.BillingSession.SettleQuota` | service/billing_session.go:41-79 | an open session is charged the actual cost once; a failed funding call leaves it open |
| `Billing.BillingSession.RefundQuota` | service/billing_session.go:82-145 | an open session gets back what it took, reservations included, once; nothing after a settlement |
| `RateLimit.DecisionIsExact` | common/rate-limit.go:45-77 | while the queue is full or misses only times outside every allowed window, the decision agrees with the full history |
| `RateLimit.DoKeepsInv` | common/rate-limit.go:28-77 | requests and eviction passes keep each queue full, or what it misses outside every window still allowed |
| `RateLimit.LimiterIsExact` | common/rate-limit.go:28-77 | every decision of every run agrees with the acceptances in the window of the full history; windows of a key may vary at one limit, and limits may grow with windows no earlier one undercut |
| `RateLimit.ExactIffCompatible` | common/rate-limit.go:28-77 | asking with any policy and then any other, exact on all runs if and only if no window that reaches the queue exceeds the expiration by more than one second, the limit does not shrink, and a growing limit comes with a window that does not grow |
| `RateLimit.ExactIffAllCompatible` | common/rate-limit.go:28-77 | asking with any list of policies in order, exact on all runs if and only if every policy is compatible, in that sense, with itself and each later one |
| `RateLimit.ExactIffDurationFits` | common/rate-limit.go:28-42 | with one policy, exact on all runs if and only if the duration exceeds the expiration by at most one second |
| `RateLimit.ShrinkingLimitIsInexact` | common/rate-limit.go:60-70 | whenever the limit shrinks, a run from the empty store ends in a wrong decision |
| `RateLimit.GrowingWindowIsInexact` | common/rate-limit.go:60-70 | whenever limit and window both grow, a run from the empty store ends in a wrong decision |
| `RateLimit.LongWindowIsInexact` | common/rate-limit.go:28-42 | whenever the window is longer than the eviction allows, a run from the empty store ends in a wrong decision |
| `RateLimit.InMemoryRateLimiter.RequestAt` | common/rate-limit.go:45-77 | store and decision are those of the specification |
| `RateLimit.InMemoryRateLimiter.ClearExpiredItems` | common/rate-limit.go:28-42 | one pass drops exactly the stale keys |
| `OggScan.GetOpusDuration` | common/audio.go:197-255 | on every byte sequence it ends and returns the largest granule position of the headers taken, over 48000 |
| `OggScan.ReadPage` | common/audio.go:216-245 | granule position and next offset of a header, with a cut-off segment table ending the scan |
| `OggScan.ScanPage` | common/audio.go:216-245 | a serialised page is taken whole, at its own boundary |
| `OggScan.TakesExactlyThePages` | common/audio.go:201-245 | the scanner takes exactly the pages if and only if no capture pattern starts a header between them |
| `OggScan.SerialiseThenScan` | common/audio.go:197-255 | scanning what was written yields the pages' largest non-negative granule position |
| `OggScan.BackToBackIsQuiet` | common/audio.go:201-245 | pages written back to back are always taken exactly |
| `OggScan.RoundTripLE` | common/audio.go:219-223 | little-endian numbers are read back as written |
| `MultiKey.SurvivesIffClean` | model/channel.go:175-197 | exactly which key lists survive being stored as lines |
| `MultiKey.BlankEdgeIsLost` | model/channel.go:193-196 | a blank key that a deletion moves to the edge is lost |
| `MultiKey.LateMarksStay` | controller/channel.go:1792-1842 | a key text with a blank middle key: after the first key is deleted one key is counted, but time and reason of key number 1 are still stored |
| `MultiKey.CopyWithout` | controller/channel.go:1792-1824 | the copied keys and renumbered maps show the list without one entry, all others with their data |
| `MultiKey.CopyWithoutAuto` | controller/channel.go:1855-1891 | the copied keys and maps show exactly the entries that are not automatically disabled, and count the others |
| `MultiKey.DisableEnabled` | controller/channel.go:1739-1751 | disables exactly the enabled keys and counts them |
| `MultiKey.Channel.Update` | model/channel.go:526-573 | recounts the keys, drops status entries beyond them, and keeps the stored key when the new one is empty |
| `MultiKey.Channel.DisableKey` | controller/channel.go:1618-1659 | exactly one entry becomes manually disabled; from any stored channel, size and states fit the keys afterwards if and only if no state named a lost key |
| `MultiKey.Channel.EnableKey` | controller/channel.go:1661-1701 | exactly one entry becomes enabled and loses its time and reason; size and states fit afterwards if and only if no other state named a lost key |
| `MultiKey.Channel.EnableAllKeys` | controller/channel.go:1703-1725 | every key is enabled with nothing left in the maps; size and states fit afterwards, whatever was stored, unless an empty JSON array is counted as one key |
| `MultiKey.Channel.DisableAllKeys` | controller/channel.go:1727-1772 | the enabled keys below the stored size are disabled, others keep their state, and the count is right; the same exact condition on size and states |
| `MultiKey.Channel.DeleteKey` | controller/channel.go:1774-1852 | from any stored channel, exactly one entry is gone and all others are intact, if and only if the remaining keys survive storage; every map index is below the size, if and only if the keys are counted as read and none beyond the count brings a time or reason |
| `MultiKey.Channel.DeleteDisabledKeys` | controller/channel.go:1854-1921 | after storage it is the filter on status, if and only if the remaining keys survive storage; the same exact condition on the map indices; when none remains all keys come back enabled |
| `BodyStorage.SameAnswersIff` | common/body_storage.go:37-238 | memory and disk answer a sequence of calls alike, if and only if it has no empty read at or behind the end |
| `BodyStorage.ReadsDeliverInOrder` | common/body_storage.go:47-54 | successive reads of any sizes deliver the bytes from the cursor on, each once and in order |
| `BodyStorage.CountersAreExact` | common/disk_cache_config.go:108-134 | over every run of creations and repeated closes the counters are the number and total size of open storages |
| `BodyStorage.MemoryStorage.constructor` | common/body_storage.go:37-45 | an open body at position zero, counted once |
| `BodyStorage.MemoryStorage.ReadNext` | common/body_storage.go:47-54 | answers as the specification of a storage in memory |
| `BodyStorage.MemoryStorage.SeekTo` | common/body_storage.go:56-63 | answers as the specification of a storage in memory |
| `BodyStorage.MemoryStorage.AllBytes` | common/body_storage.go:74-81 | all bytes, cursor untouched, or the closed error |
| `BodyStorage.MemoryStorage.CloseStorage` | common/body_storage.go:65-72 | uncounted once, however often it is closed |
| `BodyStorage.DiskStorage.constructor` | common/body_storage.go:100-129 | an open body at position zero, counted once |
| `BodyStorage.DiskStorage.ReadNext` | common/body_storage.go:169-176 | answers as the specification of a storage on disk |
| `BodyStorage.DiskStorage.SeekTo` | common/body_storage.go:178-185 | answers as the specification of a storage on disk |
| `BodyStorage.DiskStorage.AllBytes` | common/body_storage.go:198-230 | the whole file, with the cursor back where it was |
| `BodyStorage.DiskStorage.CloseStorage` | common/body_storage.go:187-196 | uncounted once, however often it is closed |
| `CodeStore.ScanIsOldestIff` | common/verification.go:88-100 | for every map order the scan finds an oldest entry, except when the empty key is the strictly oldest and not seen last |
| `CodeStore.AfterRegistration` | common/verification.go:37-46 | at most 10000 entries, none expired, and nothing newer than a kept entry dropped as long as there are enough entries no younger than the empty key |
| `CodeStore.OrderlyByOne` | common/verification.go:88-100 | with one entry too many that means exactly that the empty key is not the oldest |
| `CodeStore.ConsumeUsesLatest` | common/verification.go:61-70 | a successful consume uses the latest registration, with its code, within ten minutes, and uses it up |
| `CodeStore.ConsumesAreDistinct` | common/verification.go:61-70 | two successful consumes of a key use two registrations |
| `CodeStore.ConsumesAtMostRegistrations` | common/verification.go:37-70 | consumes never exceed registrations, with one left while a registration is live |
| `CodeStore.VerdictIsExact` | common/verification.go:48-70 | while the store has room, a code is accepted exactly if it is that of the live registration and still valid |
| `CodeStore.RemoveExpired` | common/verification.go:79-86 | keeps exactly the unexpired entries, whatever the map order |
| `CodeStore.FindOldest` | common/verification.go:90-97 | a named oldest entry, unless the empty key is the oldest |
| `CodeStore.Trim` | common/verification.go:88-100 | drops until the store fits, and no more; oldest entries, as long as there are enough entries no younger than the empty key |
| `CodeStore.VerificationStore.RegisterVerificationCode` | common/verification.go:37-46 | replaces the key's code, sweeps and trims |
| `CodeStore.VerificationStore.VerifyCode` | common/verification.go:48-57 | accepts exactly the stored, unexpired code and changes nothing |
| `CodeStore.VerificationStore.ConsumeVerificationCode` | common/verification.go:61-70 | accepts as verify does and removes the code exactly then |
| `CodeStore.VerificationStore.DeleteKey` | common/verification.go:72-76 | the key's code is gone, all others stay |
| `StepUp.RunAgrees` | controller/secure_verification.go:145-179 | the session markers say what the history says, except that an overdue verification may have been cleared |
| `StepUp.CheckIffRecentlyVerified` | controller/passkey.go:569-586 | a check passes exactly when the latest verification with no passkey finish since used that method under 300 seconds ago |
| `StepUp.PasskeyIffUsableFinish` | controller/secure_verification.go:157-179 | a passkey verification passes exactly when it uses up an unused finish under 60 seconds old |
| `StepUp.LatestMeans` | controller/secure_verification.go:85-126 | that verification passed, no accepted finish and no passing verification followed it, and with a passkey it had its own finish |
| `StepUp.FinishesAreUsedOnce` | controller/secure_verification.go:157-179 | two passkey verifications use two different finishes |
| `StepUp.SessionStore.PasskeyVerifyFinish` | controller/passkey.go:495-503 | marks the passkey ready and clears the verification, or nothing when saving fails |
| `StepUp.SessionStore.ConsumePasskeyReady` | controller/secure_verification.go:157-179 | the marker is gone whether or not it was still valid; only a failed save keeps it |
| `StepUp.SessionStore.SetSecureVerification` | controller/secure_verification.go:145-155 | the verification and its method replace all markers |
| `StepUp.SessionStore.UniversalVerify` | controller/secure_verification.go:85-126 | answer and stored markers are those of the specification for both methods |
| `StepUp.SessionStore.RequireSecureVerificationMethod` | controller/passkey.go:569-586 | passes exactly for a fresh verification of that method, and clears a stale one |
| `QuotaMath.FromFloatMeans` | common/quota_math.go:72-107 | in int32 range, never of the other sign, under one away for every amount in range, bounds included, clamped exactly outside the open range |
| `QuotaMath.RoundedMeans` | common/quota_math.go:126-148 | in int32 range, never of the other sign, at most a half away for every amount in range, bounds included, clamped exactly from half a unit inside the range on |
| `QuotaMath.Monotone` | common/quota_math.go:72-148 | a larger amount never converts to a smaller quota |
| `QuotaMath.RoundNearTrunc` | common/quota_math.go:72-148 | rounding and truncation differ by at most one everywhere |
| `QuotaMath.StrictIffInside` | common/quota_math.go:88-134 | the strict forms succeed exactly strictly inside the range, with the checked quota; the bounds themselves are refused |

## Left out

- HTTP binding, JSON responses, logging, translations, audit records, OAuth and WebAuthn exchanges: plumbing around the modelled decisions.
- Signature, password and one-time-code checks: primitives whose outcome is a parameter of the model.
- Payments.SafeIffTimely: the two Waffo gateways count as one provider, a request that cannot insert its row is not modelled, and a refused subscription checkout may be repeated.
- Payments.OneProcessIsSafe: the last clause leaves out the rows that mirror a subscription order, which carry no quota and are not credited.
- PriceDiff.BuildDifferences: fetching the channels' documents and the OpenRouter conversion are not modelled.
- ModelsDev.PickIsCheapest: the ratios computed from the selected cost are not modelled.
- RateLimit.ExactIffAllCompatible: the policies follow one another for all keys together; RateLimit.LimiterIsExact gives a sufficient condition per key. The expiration counts whole seconds of the positive duration with which the background pass is started; a limiter without that pass is not modelled.
- MultiKey: appending keys in UpdateChannel and the polling index are not modelled.
- OggScan.GetOpusDuration: pre-skip is not subtracted, as in the source, and the other audio formats are thin wrappers over decoders.
- UpstreamSync.ChannelRecord.CheckAndPersist: the fetch, the ability table update and the notification that follow are not modelled.
- Relay.Relay: what an upstream attempt does, and the violation fee charged after a refund, are not modelled.
- Relay.RelayTask: whether billing exists is an observation of the run; the amounts are the subject of the Billing module.
- Billing.OpenedIsBalanced: the choice between wallet and subscription, the amounts' integer width and the asynchronous execution of a refund are not modelled.
- BodyStorage.DiskStorage.AllBytes: the returned bytes are a value, so aliasing of the in-memory slice is not captured; seeking with a whence other than start, current or end is not modelled.
- BodyStorage.CountersAreExact: cleanup of files that are still open decrements counters that a later close decrements again, and is not part of a run.
- CodeStore.AfterRegistration: the exact time is a number of nanoseconds; rounding of the seconds as a float is not modelled.
- StepUp.SessionStore.UniversalVerify: requests turned away before they touch the session, markers of a wrong type, and the middleware that clears the session are not modelled.
- QuotaMath: IEEE rounding of the inputs is not modelled; decimals convert like the rounded real of the same value.
