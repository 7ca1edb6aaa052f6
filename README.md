# feedengine core, modelled in Dafny

feedengine is a plugin host for feed crawlers. The core that this project models
covers the following parts:

- **Plugins.** The plugin lifecycle (`Plugin`, `Hook`, `PluginManager`) moves
  each plugin through notReady, onCreate, onActive, onDispose and error. It
  keeps per-plugin route prefixes, the plugin-name pattern, the `allSettled`
  barrier, `waitPlugins`, and the listener bookkeeping that `on`, `off` and
  `onDispose` keep.
- **Tasks.** The task engine (`TaskManager`, `TaskWrap`) holds the registries of
  standard and non-standard task constructors. Each run is a state machine with
  a page lease and rate-limited io queues. Callers get back task references.
- **Schedules.** The schedule registry (`ScheduleManager`) has startup,
  interval and manual schedules, interval catch-up, cancel, change, create and
  delete, and a listing.
- **Messages.** The message bus (`MessageManager`) keeps consumers with private
  buffers and a drain loop, a shared consumable buffer, replay of notifications,
  confirm ids, and progress handles.
- **Pages.** The page pool (`DriverManager`) is a free-page pool, an active-page
  set and a request queue with `pagesConcurrency` workers.
- **Settings.** `SettingManager` caches settings. It reconciles the
  per-plugin performance list with the loaded plugins and replaces sections of
  the global settings.
- **Atom.** The Atom plugin's helpers normalise a query string into a filter,
  validate an atom feed against sections 4.1.1 and 4.1.2 of RFC 4287, and emit
  a feed's elements in a fixed order.
- **Cookies.** A browser cookie is converted into a tough-cookie cookie.
- **definePlugin.** The plugin authoring helper `definePlugin` has three call
  shapes.

Each source file that updates objects in place is modelled as classes with
those fields. Each method carries `modifies`/`reads` frames and a contract
stating its whole new state. Pure helpers are functions with lemmas. An
asynchronous function is split at its `await` points: each step is a method,
and the environment (a settled promise, a fired timer, a failing hook) picks
which step runs next. Calls into other libraries are reduced as follows:

- The shared mitt bus is its map from event type to handler list. `on` appends
  a handler. `off` with a handler removes its first copy. `off` without one
  empties the type's list. mitt itself is not part of this model; these rules
  are those of mitt 3.0.0.
- A database table is a map.
- A puppeteer tab is an abstract `Page`.
- The clock is a parameter.

Where the code and its design description disagree, the model follows the code:

- When a plugin's `init` fails, the plugin ends in the **error** state, not in
  onDispose. The error handler's call of the plugin's `onDispose` fails because
  `this.plugin` was never set. The plugin is in both the successful and the
  failed list, because `loadPlugins` sees its `init` resolve
  (`Plugins.FailedInitIsAlsoLoaded`).
- `updateLastRunTime` is called with the **task** id as the row id.
- The interval catch-up compares days of the month exactly, so it never catches
  up across a month end.
- Without a catch-up, an interval schedule has no `refs` entry until its timer
  first fires. Until then, cancelSchedule and changeSchedule throw for it.
  Deleting such a schedule leaves its job live. deleteSchedule does not await
  cancelSchedule (schedule/index.ts:208), so nothing handles the rejection.
  `refs.delete` then does nothing. The job later fires, re-creates the entry
  and runs the task of the deleted row (lines 77-83). The corrected catch-up
  does not close this case. `Schedule.ScheduleManager.DeleteSchedule` allows
  it: its no-live-job promise covers only ids that had an entry.
- changeSchedule does not await cancelSchedule either (line 141). A rejection
  there, from destroying a run that is no longer attached, is not handled.
- Every plugin subscribes once to `allSettled` in its constructor
  (plugins/index.ts:59), and `onActive` (lines 297-312) sets the active state
  unconditionally. A plugin whose onCreate failed, and which has already been
  through onDispose, is therefore activated again: its user onActive runs.
  `Plugins.Plugin.OnActive` models this as written.
- The drain of a closed consumer job takes one item and then stops.
- deleteSchedule does not await cancelSchedule, so an unknown id does not make
  deleteSchedule throw.
- A string title has no `type`, so `handleAtomElement` emits no title element
  for it (`Atom.StringTitleEmitsNothing`).

`Atom.IsValidatedAtomFeed` models `isValidatedAtomFeed` as written. Its
corrected form, `Atom.Validate`, is the one `Atom.ValidateIffConforming` proves
equivalent to the RFC 4287 rules. The same split between an as-written member
and a corrected member is used for every row of "## Findings". The rest of the
model calls the corrected member.

## Model

| member | source | states |
|---|---|---|
| Common.DecimalInjective | packages/core/src/message/index.ts:164 | Different counters render as different decimal strings. |
| Common.DigitsValueOfDecimal | packages/atom/src/utils.ts:96 | Reading back the decimal rendering of n gives n. |
| Cookie.P2tSameSite | packages/core/src/utils/serializeForTough.ts:11-23 | 'Lax' maps to lax and 'Strict' to strict; every other value, a missing one included, maps to none. Each direction is an if-and-only-if. |
| Cookie.SerializeForTough | packages/core/src/utils/serializeForTough.ts:5-46 | The name, value, path and flags are copied. The domain is canonicalised. The expiry is 'Infinity' exactly for 0 and -1; otherwise it is the seconds times 1000. The cookie is host-only exactly when its domain does not start with a dot. |
| PluginApi.DefinePlugin | packages/plugin/src/index.ts:7-21 | An object first argument is kept as `app`, and the options are the second argument when one is given. An options first argument gives a record whose options are that argument and which has no app. |
| PluginApi.DefinePluginDeterminesCall | packages/plugin/src/index.ts:7-21 | The record fixes the first argument, and the second one whenever the first is an app. |
| Setting.DefaultPluginConfig | packages/core/src/storage/setting.ts:28-31 | A new plugin entry has the plugin's name and one IO slot and one task slot. |
| Setting.FindByName | packages/core/src/storage/setting.ts:42 | Finds the first entry with the name, or returns -1 exactly when no entry has it. |
| Setting.Reconciled | packages/core/src/storage/setting.ts:41-53 | One entry per loaded plugin, in loaded order. |
| Setting.ReconciledEntries | packages/core/src/storage/setting.ts:41-53 | Each reconciled entry carries its plugin's name. A plugin with entries keeps its first one unchanged; a new plugin gets the default limits. |
| Setting.ReconciledCoversLoaded | packages/core/src/storage/setting.ts:41-53 | Every loaded plugin has an entry afterwards. |
| Setting.DiffAndPrunePerformance | packages/core/src/storage/setting.ts:33-61 | Reports a change exactly when the lengths differ or some loaded plugin lacks an entry. When it does, the list becomes the reconciled list; otherwise the settings are returned as they were. |
| Setting.ReconciledIdempotent | packages/core/src/storage/setting.ts:33-61 | Reconciling twice gives the list of the first pass. |
| Setting.SecondCallUnchanged | packages/core/src/storage/setting.ts:33-61 | A second call right after a changing one reports no change. |
| Setting.OrderIsNotRestored | packages/core/src/storage/setting.ts:55-60 | A list holding every loaded plugin in another order counts as unchanged. |
| Setting.WithSection | packages/core/src/storage/setting.ts:148 | The named section is replaced with the given value. |
| Setting.WithSectionKeepsOthers | packages/core/src/storage/setting.ts:145-151 | Replacing one section leaves the other three as they were. |
| Setting.SettingManager.GetPluginSettings | packages/core/src/storage/setting.ts:153-179 | A cache hit returns the cached value and changes nothing. A miss returns what the store holds and caches it only when it is found. |
| Setting.SettingManager.SetPluginSettings | packages/core/src/storage/setting.ts:181-201 | Fails exactly when the plugin record is missing, and then changes nothing. Otherwise the stored row and the cache both hold the new settings with the record's version. |
| Setting.SettingManager.Init | packages/core/src/storage/setting.ts:90-98 | Reconfiguration is needed exactly when neither the cache nor the store holds the engine's settings. |
| Setting.SettingManager.UpdateGlobalSettings | packages/core/src/storage/setting.ts:131-151 | Succeeds exactly when the engine's settings exist and its plugin record exists. The cache holds the edited settings even when the write fails. On success the store holds them too, and on failure the store is unchanged. |
| Atom.ParseInt | packages/atom/src/utils.ts:96 | A number is kept, a string is parsed as ParseIntString says, and every result is a number or NaN. |
| Atom.ParseIntString | packages/atom/src/utils.ts:96 | After the leading white space and one sign, the result is NaN exactly when no digit follows, hexadecimal digits after a `0x` or `0X` prefix and decimal ones otherwise. |
| Atom.LeadingSpaceIgnored | packages/atom/src/utils.ts:96 | A white space character in front, a Unicode space or line terminator included, leaves the parse unchanged. |
| Atom.ParseIntOfHex | packages/atom/src/utils.ts:96 | `0x` or `0X` followed by hexadecimal digits parses to their base-16 value. |
| Atom.HexPrefixParses | packages/atom/src/utils.ts:96 | "0x1A" parses to 26. |
| Atom.BareHexPrefixIsNaN | packages/atom/src/utils.ts:96 | "0x" alone parses to NaN. |
| Atom.ParseIntOfDigits | packages/atom/src/utils.ts:96 | A digit string parses to the value of its digits. |
| Atom.Normalised | packages/atom/src/utils.ts:70-98 | The filter keys become arrays: an array is kept, anything else is wrapped. sorted and cache become their truthiness, limit is parsed, and the two date keys become dates. Every other key is kept. |
| Atom.Query.TransQueryToStdFilter | packages/atom/src/utils.ts:68-100 | The query keeps the same keys, and each value becomes its normalised value. |
| Atom.NormalisedIdempotent | packages/atom/src/utils.ts:70-98 | Normalising twice equals normalising once, except for the date keys. |
| Atom.FalseStringBecomesTrue | packages/atom/src/utils.ts:57-93 | The schema admits the string "false" for sorted and cache, and it becomes true. |
| Atom.LimitDigitsParse | packages/atom/src/utils.ts:53-97 | A limit given as a decimal string becomes its number. |
| Atom.Iter | packages/atom/src/utils.ts:108 | for...of visits an array's elements, and fails with a TypeError exactly on values that are neither arrays nor strings. |
| Atom.FindAlternate | packages/atom/src/utils.ts:163 | Finds an alternate link exactly when one exists with no nullish link before it. Reports none exactly when every link is non-null and none is alternate. |
| Atom.FirstFailure | packages/atom/src/utils.ts:108-128 | Succeeds exactly when every entry passes. Otherwise returns the failure of an entry that all earlier entries pass. |
| Atom.FirstFailureUnique | packages/atom/src/utils.ts:108-128 | The first failing entry determines the result. |
| Atom.CheckEachEntry | packages/atom/src/utils.ts:108-128 | The loop computes the first failure over the entries. |
| Atom.AuthorCheckAsWritten | packages/atom/src/utils.ts:102-116 | Passes when the feed's author has any name. Without one it needs entries, each with a string author name. A nullish feed throws. |
| Atom.AuthorCheck | packages/atom/src/utils.ts:102-116 | The corrected rule: the feed names an author (a person, or an array holding a named person), or there are entries and each of them names one. |
| Atom.MustHaveAuthor | packages/atom/src/utils.ts:102-116 | The loop computes the as-written author check. |
| Atom.AuthorArrayRejected | packages/atom/src/utils.ts:103 | A feed whose author is an array of named persons fails the as-written rule and passes the corrected one. |
| Atom.FieldCheck | packages/atom/src/utils.ts:118-158 | Passes exactly when the feed's field has the required type and, if there are entries, every entry's field has it too. A nullish feed throws. |
| Atom.MustHaveId | packages/atom/src/utils.ts:118-130 | The loop checks for a string id on the feed and on every entry. |
| Atom.MustHaveTitle | packages/atom/src/utils.ts:132-144 | The loop checks for a string title on the feed and on every entry. |
| Atom.MustHaveUpdated | packages/atom/src/utils.ts:146-158 | The loop checks that `updated` is an object on the feed and on every entry. |
| Atom.MustHaveContent | packages/atom/src/utils.ts:160-171 | The loop computes the as-written content scan `ContentCheckAsWritten`, which stops with success at the first entry that lacks content but has an alternate link. |
| Atom.ContentCheck | packages/atom/src/utils.ts:160-171 | The corrected rule passes exactly when every entry is non-null and has content or an alternate link. |
| Atom.ContentCheckImpliesAsWritten | packages/atom/src/utils.ts:163-165 | The as-written scan accepts everything the corrected rule accepts. |
| Atom.ContentScanStopsEarly | packages/atom/src/utils.ts:163-165 | An entry with only an alternate link hides a later entry that has neither. |
| Atom.FirstOf | packages/atom/src/utils.ts:173-190 | Returns none exactly when every check passes. Otherwise returns the first failing check. |
| Atom.FirstOfAt | packages/atom/src/utils.ts:173-190 | The first failing check is the result. |
| Atom.IsValidatedAtomFeed | packages/atom/src/utils.ts:173-190 | The validator equals `ValidateAsWritten`: a nullish feed throws, and otherwise the author, id, title, updated and (with entries) content checks run in this order, as written. |
| Atom.ValidatedAsWrittenHasFields | packages/atom/src/utils.ts:173-190 | A feed the as-written validator accepts is non-null, and it and its entries have a string id, a string title and an object `updated`. |
| Atom.AuthorCheckConforms | packages/atom/src/utils.ts:173-190 | The corrected author check passes exactly on feeds meeting section 4.1.1 of RFC 4287. |
| Atom.FieldCheckConforms | packages/atom/src/utils.ts:173-190 | The field check passes exactly on feeds whose field and entries' fields have the type. |
| Atom.ContentCheckConforms | packages/atom/src/utils.ts:173-190 | The corrected content check passes exactly on feeds meeting section 4.1.2 of RFC 4287. |
| Atom.ValidateIffConforming | packages/atom/src/utils.ts:173-190 | The corrected validator `Validate` (the same checks with the corrected author and content rules) accepts exactly the feeds that meet every rule it covers. |
| Atom.IsTextContent | packages/atom/src/utils.ts:204-210 | True exactly for type html or text. Throws exactly on a nullish value. |
| Atom.TextContent | packages/atom/src/utils.ts:192-202 | html becomes a CDATA section, text a text node, and any other type emits nothing. |
| Atom.ContentElement | packages/atom/src/utils.ts:264-280 | At most one element, and it is a content element. |
| Atom.Part | packages/atom/src/utils.ts:212-289 | A block emits only elements with its own tag, nothing for an absent field, and fails only with a TypeError. |
| Atom.EmitUpToOrdered | packages/atom/src/utils.ts:212-289 | The first k blocks emit elements in block order, each from a present field. |
| Atom.EmissionOrder | packages/atom/src/utils.ts:212-289 | The emitted elements follow the fixed order author, category, …, summary, and only present fields are emitted. |
| Atom.EmitUpToContainsPart | packages/atom/src/utils.ts:212-289 | Every earlier block's elements are in the emission. |
| Atom.PresentFieldEmitted | packages/atom/src/utils.ts:212-289 | A present category, generator, icon, id, logo, updated or published field always yields its element. |
| Atom.EmitUpToStep | packages/atom/src/utils.ts:212-289 | Emitting one more block appends that block's elements. |
| Atom.EmitUpToStaysFailed | packages/atom/src/utils.ts:212-289 | Once a block fails, the whole emission fails. |
| Atom.StringTitleEmitsNothing | packages/atom/src/utils.ts:192-202 | A plain string title emits no element. |
| Atom.Doc.EleAll | packages/atom/src/utils.ts:212-289 | The document grows by exactly the given elements, in order. |
| Atom.HandleAtomElement | packages/atom/src/utils.ts:212-289 | Fails exactly when the emission fails, and then with a TypeError. Otherwise the document grows by the emitted elements. |
| Atom.EntriesTree | packages/atom/src/utils.ts:291-303 | Succeeds exactly when every entry emits. Then there is one entry element per entry, in order, holding that entry's elements. |
| Atom.FeedTreeShape | packages/atom/src/utils.ts:291-303 | A built document is the feed's elements followed by one entry element per entry, in entry order. |
| Atom.BuildAtomFeed | packages/atom/src/utils.ts:291-303 | Builds the document of the feed tree. |
| Atom.EntriesTreeStaysFailed | packages/atom/src/utils.ts:291-303 | A failing entry makes the whole document fail. |
| Message.Shift | packages/core/src/message/index.ts:54 | Takes from the private buffer first, then from the replay buffer, and returns none when both are empty. |
| Message.NextItem | packages/core/src/message/index.ts:54-70 | Never hands out a consumed item. It ends exactly with both buffers empty. |
| Message.NextItemSplits | packages/core/src/message/index.ts:54-70 | The two buffers act as one FIFO queue: a run of consumed items is skipped, then the next item is delivered and exactly the rest of the queue remains. |
| Message.NextItemPrefersBuffer | packages/core/src/message/index.ts:54-70 | While the private buffer has an unconsumed item, the replay buffer is untouched. |
| Message.MessageManager.Drain | packages/core/src/message/index.ts:54-72 | An open job delivers the next queue item and keeps the rest. It stops running exactly when nothing is left. A closed job takes one item and stops. |
| Message.MessageManager.Run | packages/core/src/message/index.ts:47-73 | Returns at once while a drain runs; otherwise it drains. |
| Message.MessageManager.JobPush | packages/core/src/message/index.ts:75-83 | A closed job ignores the message. A busy job buffers it. An idle job sends it at once. |
| Message.MessageManager.RegisterConsumer | packages/core/src/message/index.ts:39-106 | The new job is registered for pushes and under its sender. It starts from a copy of the consumable buffer and begins draining. |
| Message.MessageManager.UnRegiserConsumerAsWritten | packages/core/src/message/index.ts:108-112 | Closes and forgets the job, but leaves `pushRefs` unchanged. |
| Message.MessageManager.UnRegisterConsumer | packages/core/src/message/index.ts:108-112 | Closes and forgets the job and removes it from the push references. |
| Message.MessageManager.SendSettled | packages/core/src/message/index.ts:62-67 | A successful send goes on draining. A failed send unregisters the consumer with the corrected `UnRegisterConsumer` (see "## Findings") and ends the drain by throwing. As written, line 65 calls `unRegiserConsumer`, which leaves the job in the push references. |
| Message.MessageManager.Push | packages/core/src/message/index.ts:114-128 | A consumable message joins the shared buffer. With no push references a notification is kept for replay; otherwise every referenced job receives the message. |
| Message.MessageManager.FindId | packages/core/src/message/index.ts:131 | Finds the first buffered message with the id, or returns -1 exactly when there is none. |
| Message.MessageManager.Consume | packages/core/src/message/index.ts:130-137 | Marks that message consumed and removes it from the buffer. An unknown id changes nothing. No other message's mark changes. |
| Message.MessageManager.Notify | packages/core/src/message/index.ts:139-154 | Makes a non-consumable notification message, replayed or delivered as Push says. |
| Message.MessageManager.Confirm | packages/core/src/message/index.ts:156-177 | Makes a consumable confirm message whose id is the counter's decimal form. The counter advances and the message joins the shared buffer. The replay buffer is never touched, and every push reference receives the message. |
| Message.ConfirmIdsDistinct | packages/core/src/message/index.ts:164 | Confirm ids made from different counter values differ. |
| Message.MessageManager.Progress | packages/core/src/message/index.ts:179-206 | Returns a fresh open handle, remembered in the progress references. |
| Message.MessageManager.ProgressSend | packages/core/src/message/index.ts:186-196 | A closed handle pushes nothing. An open one pushes a message on its channel, which joins the shared buffer when consumable. With no push references a notification is kept for replay; otherwise every push reference receives the message. The handle itself is returned. |
| Message.MessageManager.ProgressEnd | packages/core/src/message/index.ts:197-200 | The handle closes and is forgotten. |
| Message.MessageManager.Close | packages/core/src/message/index.ts:208-218 | With the corrected unregistration, every consumer is closed and leaves the push references, and every progress handle is ended. The source calls the as-written `unRegiserConsumer`, which leaves the jobs in the push references (see "## Findings"). |
| Message.MessageManager.UnregisterAll | packages/core/src/message/index.ts:209-211 | Every consumer is closed and removed. |
| Message.MessageManager.UnregisterStep | packages/core/src/message/index.ts:209-211 | One consumer is closed and removed, and the jobs closed earlier stay closed. |
| Message.MessageManager.EndAllProgress | packages/core/src/message/index.ts:213-215 | Every handle that was open is closed and the set is emptied. |
| Message.UnregisteredConsumerSwallowsNotifications | packages/core/src/message/index.ts:108-128 | After the as-written unregistration of the only consumer, a notification is neither buffered for replay nor delivered. |
| Message.UnregisteredConsumerKeepsNotifications | packages/core/src/message/index.ts:108-128 | After the corrected unregistration, the same notification is the one message buffered for replay. |
| Driver.DriverManager.constructor | packages/core/src/driver/index.ts:19-58 | The pools are empty, the first open is pending and no worker is busy. |
| Driver.DriverManager.GetPage | packages/core/src/driver/index.ts:31-45 | Returns the head of the free pool, or else the initial tab the first time and a new tab afterwards. Without a browser it fails after clearing the first-open flag. |
| Driver.DriverManager.NextPage | packages/core/src/driver/index.ts:31-45 | The page getPage gives next: none exactly when the free pool is empty and no browser is launched. Otherwise the head of the free pool, or else the initial tab exactly on the first open. |
| Driver.DriverManager.StartWorker | packages/core/src/driver/index.ts:50-58 | The worker answers the request with the next page and holds it. If no page can be had, the request stalls and the job ends. |
| Driver.DriverManager.RequestPage | packages/core/src/driver/index.ts:84-92 | A forced request takes the next page outside the queue. Any other request starts a worker if one is free, or waits. The queue limit holds. |
| Driver.DriverManager.ReleasePage | packages/core/src/driver/index.ts:94-107 | A forced release closes the page; any other release returns it to the free pool. A held page ends its worker's job. |
| Driver.DriverManager.WorkerDone | packages/core/src/driver/index.ts:50-58 | A finished worker takes the oldest waiting request, or becomes free. |
| Driver.ReleasedPageIsReused | packages/core/src/driver/index.ts:50-107 | With one worker, a second request waits until the first page is released, and is then granted that same page. |
| Task.IsStandardTask | packages/core/src/task/index.ts:52-58 | True exactly when `setup` is a function. Throws exactly on a nullish task. |
| Task.OwnerOf | packages/core/src/task/index.ts:350 | A plugin object's owner is its name. A bare name string has no owner. |
| Task.StdKeyInjective | packages/core/src/task/index.ts:350 | Owner names without '@' make distinct keys for distinct (owner, task) pairs. |
| Task.UndefinedOwnerCollides | packages/core/src/task/index.ts:350 | A plugin named "undefined" collides with every registration of a bare name. |
| Task.FindIndex | packages/core/src/task/index.ts:281 | Returns the first position of the element, or -1 exactly when it is absent. |
| Task.Splice1 | packages/core/src/task/index.ts:280-283 | Removes one element at the index; -1 removes the last. |
| Task.SpliceDistinct | packages/core/src/task/index.ts:280-283 | In a list without repetitions, removing an element removes it entirely. |
| Task.Delay | packages/core/src/task/index.ts:176-180 | The least non-negative wait after which the interval has passed. |
| Task.DelayZeroIff | packages/core/src/task/index.ts:176-180 | There is no wait exactly when the interval has already passed. |
| Task.Throttle.StartJob | packages/core/src/task/index.ts:175-181 | A NaN interval never waits; otherwise the wait is that delay. |
| Task.Throttle.JobSettled | packages/core/src/task/index.ts:190-192 | The queue's time stamp becomes the settling time. |
| Task.TaskRef.OnSuccess | packages/core/src/task/index.ts:512-515 | Installs the callback and returns the reference itself. |
| Task.TaskRef.Destroy | packages/core/src/task/index.ts:516-518 | Without a callback it changes nothing. Otherwise the wrap ends, and the call succeeds exactly when the wrap was attached. |
| Task.TaskWrap.constructor | packages/core/src/task/index.ts:68-97 | A new wrap reports pending, joins its meta's running list and installs its destroy callback. |
| Task.TaskWrap.SetState | packages/core/src/task/index.ts:103-111 | The wrap's state is set. While attached, the reference and the progress report follow; once detached, the call throws. |
| Task.TaskWrap.CheckIsStillRunning | packages/core/src/task/index.ts:114-118 | Passes exactly when the wrap is running. |
| Task.TaskWrap.Admit | packages/core/src/task/index.ts:87-130 | A pending wrap becomes running. Setup runs exactly when the wrap is running and attached. |
| Task.TaskWrap.ReleaseResources | packages/core/src/task/index.ts:256-268 | The progress handle closes, a held page is given back and the queues are killed. |
| Task.TaskWrap.Detach | packages/core/src/task/index.ts:270-283 | The callbacks are cleared and the wrap leaves the running list, which stays consistent. |
| Task.TaskWrap.Destroy | packages/core/src/task/index.ts:251-284 | Finishes the run unless it failed. Frees the resources and detaches the wrap. Succeeds exactly when the wrap was attached. |
| Task.TaskWrap.ErrorHandler | packages/core/src/task/index.ts:237-249 | exit() finishes the wrap. Any other error fails an unfinished run and destroys it. |
| Task.TaskWrap.RunSettled | packages/core/src/task/index.ts:228-234 | On success the success callback runs once and the wrap finishes. Otherwise the error handler decides the state. |
| Task.TaskWrap.ReportProgress | packages/core/src/task/index.ts:153-159 | Reports only while running, and fails otherwise. |
| Task.TaskWrap.PageRequest | packages/core/src/task/index.ts:200-205 | Allowed exactly while running and holding no page. |
| Task.TaskWrap.PageGranted | packages/core/src/task/index.ts:207-211 | The page is held. The request succeeds exactly when the wrap is still running. |
| Task.TaskWrap.PageRelease | packages/core/src/task/index.ts:213-218 | A held page is given back and none is held afterwards. |
| Task.TaskWrap.IoQueue | packages/core/src/task/index.ts:161-198 | A function argument uses the plugin's queue. A number makes a fresh rate-limited queue. Anything else throws. |
| Task.TaskWrap.StartThrottled | packages/core/src/task/index.ts:175-181 | A killed queue starts nothing. Otherwise a job waits until the interval has passed. |
| Task.OddIndexed | packages/core/src/task/index.ts:384-386 | Keeps the elements at odd positions. |
| Task.OddIndexedStep | packages/core/src/task/index.ts:384-386 | One loop step removes the element at 2i and passes over the next. |
| Task.DestroyAt | packages/core/src/task/index.ts:385 | The wrap at position i ends and leaves the list. |
| Task.SkipLoopStep | packages/core/src/task/index.ts:384-386 | One step keeps the loop state of the as-written loop. |
| Task.SkipLoopExit | packages/core/src/task/index.ts:384-386 | At loop exit, exactly the odd-positioned wraps remain and the even ones have ended. |
| Task.DestroyRunningAsWritten | packages/core/src/task/index.ts:384-386 | As written, only the even-positioned wraps are destroyed; the odd ones keep running. |
| Task.DestroyRunning | packages/core/src/task/index.ts:384-386 | Every running wrap is destroyed and the list is empty. |
| Task.SecondRunSurvivesUnregister | packages/core/src/task/index.ts:384-386 | Two running wraps of one task, destroyed as written: the first ends and the second is still running. |
| Task.DropOwned | packages/core/src/task/index.ts:382-389 | With the corrected `DestroyRunning` loop (see "## Findings"), the wraps of one meta are destroyed, and the other metas are unchanged. As written, lines 384-386 leave every odd-positioned wrap running (`Task.DestroyRunningAsWritten`). |
| Task.CreateGuardAsWritten | packages/core/src/task/index.ts:544-552 | Passes exactly for a registered task whose `setup` is falsy. |
| Task.RegisteredTaskRejectedAsWritten | packages/core/src/task/index.ts:550 | The as-written guard rejects every registered standard task. |
| Task.CreateGuard | packages/core/src/task/index.ts:544-552 | Passes exactly for a registered task with a `setup`. |
| Task.RegisteredTaskAccepted | packages/core/src/task/index.ts:544-552 | The corrected guard admits every registered standard task. |
| Task.TaskManager.constructor | packages/core/src/task/index.ts:287-306 | Empty registries, not closed, with the given table. |
| Task.TaskManager.Register | packages/core/src/task/index.ts:348-379 | A standard task gets a fresh meta under its key and its name in the owner's set, and the other keys are kept. A non-standard task joins the tree under its name. A nullish task throws and changes nothing. |
| Task.TaskManager.UnRegisterTaskByPlugin | packages/core/src/task/index.ts:381-400 | The plugin's standard tasks are removed. With the corrected `DestroyRunning` loop (see "## Findings"), every wrap that was running for them has ended (settled and detached); as written, lines 384-386 leave every odd-positioned wrap running. The other tasks are kept. Its name set goes. Its non-standard registrations leave every set. |
| Task.TaskManager.DropStdTasks | packages/core/src/task/index.ts:382-389 | Exactly the plugin's keys are removed. With the corrected `DestroyRunning` loop (see "## Findings"), their running lists end up empty and every wrap that was in them has ended; as written, lines 384-386 leave every odd-positioned wrap running. |
| Task.TaskManager.DropStep | packages/core/src/task/index.ts:382-389 | One key visit keeps the loop invariant. |
| Task.TaskManager.DropEntry | packages/core/src/task/index.ts:382-389 | Visiting one owned key destroys its wraps, removes the key and keeps the loop invariant. |
| Task.TaskManager.DroppedEnded | packages/core/src/task/index.ts:382-389 | Once every key is visited, each old wrap of the plugin's tasks has ended. |
| Task.TaskManager.PurgeNonStd | packages/core/src/task/index.ts:393-399 | The plugin's registrations leave every set, and the keys are kept. |
| Task.TaskManager.ExecTask | packages/core/src/task/index.ts:504-535 | Refuses exactly once closed. Otherwise returns a fresh pending reference. |
| Task.TaskManager.StartTask | packages/core/src/task/index.ts:521-533 | Starts a wrap on the registered meta named by the task's row. A missing row throws and changes nothing. A missing meta throws after the row is found; the reference is left pending, and exactly one pending progress report is sent on a handle that is never ended. |
| Task.TaskManager.CreateTask | packages/core/src/task/index.ts:538-562 | Adds a row under the next id exactly when the corrected guard passes. |
| Task.TaskManager.Close | packages/core/src/task/index.ts:564-565 | The manager is closed. |
| Plugins.InitialBaseUrl | packages/core/src/plugins/index.ts:53-57 | The prefix is the root exactly for the two built-in plugins, and `/name/` for every other plugin. |
| Plugins.AppBaseUrl | packages/core/src/plugins/index.ts:208-210 | A truthy app baseUrl is appended; otherwise the prefix is kept. |
| Plugins.SettingUrlOf | packages/core/src/plugins/index.ts:212-216 | A string settingUrl is prefixed with the baseUrl; any other value is kept. |
| Plugins.SearchFrom | packages/core/src/plugins/index.ts:31 | The pattern is found from position i exactly when some later start matches. |
| Plugins.TestPluginPattern | packages/core/src/plugins/index.ts:31 | The pattern test is true exactly when the pattern matches at some position. |
| Plugins.ScopedNameMatches | packages/core/src/plugins/index.ts:31 | A scoped package name matches, because the start is not anchored. |
| Plugins.EmptyMiddleDoesNotMatch | packages/core/src/plugins/index.ts:31 | "feedengine--plugin" does not match. |
| Plugins.PluginNames | packages/core/src/plugins/index.ts:417 | The loaded names are exactly the dependencies that match the pattern. |
| Plugins.ApplyEvent | packages/core/src/plugins/index.ts:381-389 | A created event joins the created set and a failed event the error set. |
| Plugins.SettledOnce | packages/core/src/plugins/index.ts:372-389 | When every plugin reports once, allSettled is scheduled exactly once. |
| Plugins.Settle | packages/core/src/plugins/index.ts:263-280 | A promise settles once, and later calls change nothing. |
| Plugins.NotifyAll | packages/core/src/plugins/index.ts:266-285 | Every waitPlugins call receives the event. |
| Plugins.DetachedStays | packages/core/src/plugins/index.ts:266-274 | A call whose listeners have gone is unaffected by events. |
| Plugins.ResolvesWhenAllCreated | packages/core/src/plugins/index.ts:266-274 | A pending call resolves exactly when every awaited name has been created. |
| Plugins.ShortReportsNeverSettle | packages/core/src/plugins/index.ts:372-389 | While fewer plugins report than there are plugins, allSettled is never scheduled. |
| Plugins.Hook.constructor | packages/core/src/plugins/index.ts:365-390 | Empty sets and no listeners other than the hook's own. |
| Plugins.Hook.Emit | packages/core/src/plugins/index.ts:372-389 | The hook's listener records the event and schedules allSettled once every plugin has reported. Every waitPlugins call hears the event. |
| Plugins.Hook.FireAllSettled | packages/core/src/plugins/index.ts:374-377 | Every once-listener is called, and then all listeners are removed. |
| Plugins.TwoPluginsSettle | packages/core/src/plugins/index.ts:365-390 | With two plugins, the first report schedules nothing and the second, a failure, schedules allSettled once. A repeated report after it has fired schedules nothing more. |
| Plugins.Hook.WaitPlugins | packages/core/src/plugins/index.ts:248-285 | Rejects exactly when some requested name is unknown or failed, naming the first such name. Otherwise it watches the names not yet created. |
| Plugins.MittOn | packages/core/src/plugins/index.ts:130 | mitt's `on`: the handler is appended to its type's list, whose old contents stay in front. Every other type is unchanged. |
| Plugins.RemoveFirst | packages/core/src/plugins/index.ts:139 | The first copy of the handler goes, and a list without it is kept. The multiset loses exactly one copy. |
| Plugins.OffList | packages/core/src/plugins/index.ts:139 | mitt's `off` on one list: a handler removes its first copy, and a missing (falsy) handler empties the list. |
| Plugins.MittOff | packages/core/src/plugins/index.ts:139 | mitt's `off`: the type's list is changed as OffList says. An unknown type and every other type are unchanged. |
| Plugins.ReleasedStep | packages/core/src/plugins/index.ts:319-324 | One more `off` keeps the release invariant: the list is empty once a falsy handler was passed, and otherwise has lost one copy of each handler passed. |
| Plugins.OffStep | packages/core/src/plugins/index.ts:319-324 | One more `off(key, h)` changes only `key`'s list and keeps it released of every handler passed so far. |
| Plugins.Plugin.constructor | packages/core/src/plugins/index.ts:45-62 | The plugin starts notReady with its route prefix and an open progress handle, and is listening for allSettled. |
| Plugins.Plugin.SendProgress | packages/core/src/plugins/index.ts:95-97 | A state is reported only while the handle is open. |
| Plugins.Plugin.OnAsWritten | packages/core/src/plugins/index.ts:121-131 | As written, the first `on` for a key records `{undefined}` instead of the handler. Every `on` appends the handler on the bus. |
| Plugins.Plugin.On | packages/core/src/plugins/index.ts:121-131 | The handler is added to its key's recorded set, which is created when missing. Other keys are kept. The bus appends the handler to the key's list. |
| Plugins.Plugin.Off | packages/core/src/plugins/index.ts:132-140 | The handler leaves its key's recorded set, if the key has one. The bus removes it as mitt's `off` does. |
| Plugins.Plugin.OffEach | packages/core/src/plugins/index.ts:319-324 | After `off(key, h)` for each given handler, the key's list is empty if one of them is falsy. Otherwise it has lost one copy of each. Other types keep their lists. |
| Plugins.Plugin.ClearListeners | packages/core/src/plugins/index.ts:319-324 | The record is emptied. Each recorded key's bus list is released of its recorded handlers as OffEach says, and unrecorded types keep their lists. |
| Plugins.Plugin.RegisterFastifyPlugin | packages/core/src/plugins/index.ts:141-147 | Allowed exactly before any lifecycle hook has run. |
| Plugins.Plugin.RegisterTaskAsWritten | packages/core/src/plugins/index.ts:162-168 | As written, the task is registered without an owner under "undefined@name". |
| Plugins.Plugin.RegisterTask | packages/core/src/plugins/index.ts:162-168 | The task is registered under this plugin. It fails exactly after notReady or for a nullish task. |
| Plugins.Plugin.Fail | packages/core/src/plugins/index.ts:334-347 | The state becomes error, the handle reports it and closes, the name moves to the failed plugins, and no task of the plugin remains. |
| Plugins.Plugin.MarkFailed | packages/core/src/plugins/index.ts:335-345 | The state becomes error, the handle reports it and closes, and the name moves from the successful to the failed plugins. |
| Plugins.Plugin.OnDispose | packages/core/src/plugins/index.ts:314-332 | Every listener is released from the bus as ClearListeners says. The state becomes onDispose; if the plugin's dispose fails, it becomes error through Fail. |
| Plugins.Plugin.DisposeSettled | packages/core/src/plugins/index.ts:326-329 | A failing dispose hook runs the error handler without disposing again. Otherwise nothing changes. |
| Plugins.Plugin.ErrorHandler | packages/core/src/plugins/index.ts:334-362 | The plugin ends failed, stops serving, leaves the successful list and has no tasks. Only when asked, its listeners are released as ClearListeners says; otherwise the bus is unchanged. |
| Plugins.Plugin.InitFailed | packages/core/src/plugins/index.ts:227-230 | A failed init reports the error to the hook and ends in error with no listeners and no tasks. |
| Plugins.Plugin.InitLoaded | packages/core/src/plugins/index.ts:197-226 | The version, directory, urls and plugin object are recorded, and only the app plugin joins postInit. |
| Plugins.Plugin.Init | packages/core/src/plugins/index.ts:94-233 | A successful load records the plugin and changes nothing else. A failure ends in error. |
| Plugins.Plugin.OnCreateBegin | packages/core/src/plugins/index.ts:235-240 | The state becomes onCreate and is reported. |
| Plugins.Plugin.OnCreateSettled | packages/core/src/plugins/index.ts:288-292 | The hook hears created, or error followed by the error handler. |
| Plugins.Plugin.OnActive | packages/core/src/plugins/index.ts:297-312 | The plugin becomes active and serves, or on failure ends disposed or in error. The handle closes either way. |
| Plugins.Plugin.EnterActive | packages/core/src/plugins/index.ts:297-302 | The state becomes active, and the handle reports it while open. |
| Plugins.Plugin.ActiveSettled | packages/core/src/plugins/index.ts:304-308 | A failing onActive runs the error handler, which disposes the plugin. Otherwise nothing changes. |
| Plugins.Plugin.EndProgress | packages/core/src/plugins/index.ts:310 | The handle is ended. |
| Plugins.FulfilledPlugins | packages/core/src/plugins/index.ts:447-454 | Exactly the plugins of the fulfilled loads. |
| Plugins.RejectedNames | packages/core/src/plugins/index.ts:447-454 | Exactly the names of the rejected loads. |
| Plugins.FulfilledStep | packages/core/src/plugins/index.ts:447-454 | One more result adds at most its own plugin or name. |
| Plugins.FulfilledAppend | packages/core/src/plugins/index.ts:447-454 | Appending a result appends its plugin when it was fulfilled. |
| Plugins.PluginManager.constructor | packages/core/src/plugins/index.ts:393-399 | No plugins and empty lists. |
| Plugins.PluginManager.Partition | packages/core/src/plugins/index.ts:447-454 | Fulfilled loads join the plugins in order and the successful names. Rejected loads join the failed names. |
| Plugins.PluginManager.LoadFailedAsWritten | packages/core/src/plugins/index.ts:436-443 | As written, a failed load rejects with the plugin's name and the hook hears nothing. |
| Plugins.PluginManager.LoadFailed | packages/core/src/plugins/index.ts:436-443 | The corrected catch also reports the plugin as failed to the hook, which then counts it. |
| Plugins.RejectedLoadNeverSettlesAsWritten | packages/core/src/plugins/index.ts:419-443 | Two plugins, one of whose imports fails as written: allSettled is never scheduled. |
| Plugins.RejectedLoadSettles | packages/core/src/plugins/index.ts:419-443 | With the corrected catch, allSettled is scheduled once the other plugin is created. |
| Plugins.FailedInitIsAlsoLoaded | packages/core/src/plugins/index.ts:227-230 | A plugin whose init fails is both failed and loaded. |
| Plugins.OtherHandlerDroppedAsWritten | packages/core/src/plugins/index.ts:127 | Another plugin subscribes to a type, and then a plugin subscribes to it for the first time as written and is disposed: the other plugin's handler is removed too. |
| Plugins.OtherHandlerKept | packages/core/src/plugins/index.ts:127 | With the corrected `on`, only the disposed plugin's handler leaves the list. |
| Plugins.ReleasedLast | packages/core/src/plugins/index.ts:319-324 | Releasing a truthy handler appended last leaves the earlier handlers, up to order. |
| Plugins.RepeatedHandlerKeepsOneCopy | packages/core/src/plugins/index.ts:121-131 | A handler subscribed twice and then disposed keeps one copy in the bus list, because the record is a set and `off` removes one copy. |
| Plugins.PluginManager.Create | packages/core/src/plugins/index.ts:467-473 | Every plugin not in error enters onCreate. |
| Schedule.GetCrontab | packages/core/src/schedule/index.ts:14-16 | The crontab is ten characters longer than the period. |
| Schedule.CrontabFields | packages/core/src/schedule/index.ts:14-16 | Five fields: minute 0, hour 0, a day step of the period, every month and every weekday. |
| Schedule.Fields | packages/core/src/schedule/index.ts:14-16 | A crontab line has at least one field. |
| Schedule.LeadingDigits | packages/core/src/schedule/index.ts:53-67 | The longest digit prefix. |
| Schedule.MatchDay | packages/core/src/schedule/index.ts:53-67 | Matches exactly when the trigger is 'd' followed by a digit, and returns the whole digit run. |
| Schedule.TriggerRoundTrip | packages/core/src/schedule/index.ts:53-71 | The trigger `d<N>` reads back as N. |
| Schedule.TrailingTextIgnored | packages/core/src/schedule/index.ts:53-71 | Trailing text is ignored. "3d", "d" and null do not match. |
| Schedule.CreatedIntervalThrows | packages/core/src/schedule/index.ts:73-75 | A freshly created interval schedule throws exactly when it catches up at once after the task engine has closed. |
| Schedule.Job.Cancel | packages/core/src/schedule/index.ts:200 | The job is cancelled. |
| Schedule.ScheduleManager.constructor | packages/core/src/schedule/index.ts:18-40 | No entries, jobs or runs. The registry invariant holds. |
| Schedule.ScheduleManager.StartRun | packages/core/src/schedule/index.ts:60-64 | Refuses exactly when the engine is closed. Otherwise a fresh run carrying the schedule id and the success callback becomes the entry. |
| Schedule.ScheduleManager.StartRunAsWritten | packages/core/src/schedule/index.ts:62 | As written, the run's schedule id is the callback and no success callback is installed. |
| Schedule.ScheduleManager.CatchUpAsWritten | packages/core/src/schedule/index.ts:85-90 | As written, the entry drops the live job, which breaks the registry invariant. |
| Schedule.ScheduleManager.CatchUp | packages/core/src/schedule/index.ts:85-90 | The catch-up run keeps the job in the entry and keeps the invariant. |
| Schedule.ScheduleManager.ScheduleInterval | packages/core/src/schedule/index.ts:66-93 | Throws exactly when the trigger or the last run is missing, or a catch-up meets a closed engine. Otherwise it leaves an entry for the id exactly when the row calls for one, leaves every other entry alone and adds jobs only for this id. Runs start through the corrected `StartRun` and `CatchUp` (see "## Findings"). As written, lines 79 and 87 pass the success callback as the schedule id and install no success callback, and lines 86-89 store the catch-up entry without its job. |
| Schedule.ScheduleManager.ScheduleTask | packages/core/src/schedule/index.ts:46-95 | Throws exactly under ScheduleThrows. Otherwise it keeps the invariant, leaves an entry for the id exactly when the row's type calls for one (a manual row's entry holds no timer), leaves every other entry alone and adds jobs only for this id. Runs start through the corrected `StartRun` and `CatchUp` (see "## Findings"). As written, lines 62, 79 and 87 pass the success callback as the schedule id and install no success callback, and lines 86-89 store the catch-up entry without its job. |
| Schedule.ScheduleManager.JobFires | packages/core/src/schedule/index.ts:77-83 | A cancelled job does nothing. Otherwise the run becomes the entry, with the job. The run starts through the corrected `StartRun` (see "## Findings"). As written, line 79 passes the success callback as the schedule id and installs no success callback. |
| Schedule.ScheduleManager.CancelSchedule | packages/core/src/schedule/index.ts:193-205 | Throws for an id without an entry. Otherwise no live timer remains. A run whose reference has its destroy callback installed ends, and the call then succeeds exactly when that wrap was attached; a run without that callback is left alone. |
| Schedule.ScheduleManager.DeleteSchedule | packages/core/src/schedule/index.ts:207-217 | The entry and the row are removed, with no live timer left. |
| Schedule.DeletedScheduleStopsItsTimer | packages/core/src/schedule/index.ts:85-90 | An interval schedule that catches up at once and is then deleted leaves its timer cancelled. |
| Schedule.ScheduleManager.ChangeSchedule | packages/core/src/schedule/index.ts:118-166 | Needs an entry and a row. The old job is cancelled, the row keeps its last run, and the row is rescheduled; it is stored exactly when that succeeds. |
| Schedule.ScheduleManager.Unschedule | packages/core/src/schedule/index.ts:141-143 | The schedule is cancelled and its entry removed; the rows, jobs and launches are kept. |
| Schedule.ScheduleManager.NewRow | packages/core/src/schedule/index.ts:178-186 | The last run is set, to now, exactly for interval schedules. |
| Schedule.ScheduleManager.CreateSchedule | packages/core/src/schedule/index.ts:168-191 | The row is stored under the next id, which is returned, and then scheduled; a throw keeps the row. |
| Schedule.ScheduleManager.OnTaskSuccess | packages/core/src/schedule/index.ts:105-116 | The row named by the task id gets the new last run; otherwise nothing changes. |
| Schedule.ScheduleManager.Active | packages/core/src/schedule/index.ts:97-103 | Succeeds exactly when no row throws. Then a row has an entry exactly when its type leaves one. |
| Schedule.ScheduleManager.ListAll | packages/core/src/schedule/index.ts:219-240 | Lists exactly the rows with an entry, with their fields and the run's state. |

## Left out

- This model does not cover I/O at all: the database (its reads, writes and
  pruning), the file system, puppeteer's browser launch and tab closing, and
  the fastify server. Tables are maps. A launch is `browserLaunched`. A tab is
  an abstract `Page`.
- Asynchronous interleavings are not modelled. Each `await` is a split point,
  and the environment chooses which step runs next. fastq queues and timers are
  reduced to counters, lists and a `Delay` computation.
- The dynamic import of plugins in `loadPlugins` is left out: a load result is
  a `Settled` parameter.
- The `postInit` route registration in `PluginManager.init` is left out: only
  the membership of `postInit` is modelled.
- `PluginManager.close` is left out. It maps every active plugin to a function
  that would call onDispose, and never calls those functions
  (plugins/index.ts:475-483), so no onDispose runs on close.
- The pause and kill of queues in `TaskManager.close` are left out: only
  TaskManager's `closed` flag is modelled.
- Feed dates are abstract and always valid. For an Invalid Date, the source's
  `toISOString` in the updated and published elements throws a RangeError
  (atom/src/utils.ts:261, 283); `Atom.Part` always emits.
- The plugin context Proxy, the getSettings/setSettings forwarding,
  `getMainModel` and the task `setup` context wrappers (`inject`) are left out.
  They forward calls into modelled members.
- The confirm message that the plugin error handler sends is not modelled.
- TaskManager.init is not modelled; it reads the database.
- Schedule close is left out: it only logs.
- makeDefaultGlobalSettings, syncGlobalSettings and setGlobalSettings are left
  out: they read and write the store directly.
- Cookie fractional or NaN expiry values are not modelled: expiry is an
  integer.
- The `fDate`/`foDate` parsing is an abstract `DateFrom`.
- XML serialisation of the Atom document is left out: the model stops at the
  element tree.
- The order of set and map iteration is not modelled. The model states what a
  loop does to the whole collection, or takes the order as a parameter.
- Plugins.Plugin.Fail: states only that no task registered under the plugin's
  name remains, not the exact new registry.
- Plugins.Plugin.RegisterTask: states the registry key and owner, not the rest
  of the registration (which Task.TaskManager.Register states).
- Plugins.Plugin.RegisterTaskAsWritten: states the key and the missing owner
  only.
- Plugins.Plugin.ClearListeners: the order of the `off` calls is not fixed. The
  bus lists that result are stated up to order, as multisets.
- Plugins.Plugin.OnDispose: the same as ClearListeners.
- Atom.ParseInt: models `parseInt` of numbers and strings only. A value of
  another kind is not first converted with `String` (`["12"]` parses to 12 in
  JavaScript and to NaN here), and a number is kept rather than re-read from
  its string form (so exponential forms are not cut at the `e`). The query
  schema admits only digit strings for `limit`.
- Plugins.PluginManager.Create: models only the synchronous part of each
  onCreate.
- Schedule.ScheduleManager.CatchUpAsWritten: states only that the entry loses
  its job and the invariant breaks, not the rest of the new state.
- Atom.ContentElement: states only that at most one content element is made.
- Atom.Query.TransQueryToStdFilter: dates are abstract (`DateFrom`).
- Task.TaskWrap.Destroy: the user task's own destroy call and the logging are
  not modelled.

## Findings

| source | as written | input that shows it | evidently intended | confidence | as-written member | corrected member |
|---|---|---|---|---|---|---|
| packages/core/src/message/index.ts:111 | unRegiserConsumer deletes the send callback from `pushRefs`, which holds push functions | register a consumer, unregister it, then push a notification: it is neither buffered nor delivered (`UnregisteredConsumerSwallowsNotifications`) | remove the job's push function from `pushRefs` | high (not executed) | Message.MessageManager.UnRegiserConsumerAsWritten | Message.MessageManager.UnRegisterConsumer |
| packages/core/src/plugins/index.ts:127 | the first `on` for a key records a set holding `eventListener.get(key)`, which is undefined | another plugin subscribes `g` to type `k`, then `on(k, h)`, then onDispose: `off(k, undefined)` empties `k`'s whole list on the shared bus, so `g` is removed along with `h` (`OtherHandlerDroppedAsWritten`; with the corrected `on` only `h` goes, `OtherHandlerKept`) | record `new Set([handler])` | high (not executed) | Plugins.Plugin.OnAsWritten | Plugins.Plugin.On |
| packages/core/src/plugins/index.ts:167 | registerTask passes the plugin's name string where the plugin object is expected | a plugin registers task `t`: it is stored as "undefined@t" without an owner, and unregistering the plugin leaves it | pass the plugin itself | high (not executed) | Plugins.Plugin.RegisterTaskAsWritten | Plugins.Plugin.RegisterTask |
| packages/core/src/task/index.ts:384-386 | for...of over `tasksInRunning` while each destroy splices the current wrap out of it | two running wraps of one task: unregistering the plugin destroys the first only (`SecondRunSurvivesUnregister`) | iterate over a copy, so that every wrap is destroyed | high (not executed) | Task.DestroyRunningAsWritten | Task.DestroyRunning |
| packages/core/src/task/index.ts:550 | createTask rejects a task whose constructor's `setup` is truthy | any registered standard task (`RegisteredTaskRejectedAsWritten`) | reject a task without `setup` | medium (not executed) | Task.CreateGuardAsWritten | Task.CreateGuard |
| packages/atom/src/utils.ts:103 | the feed's author is tested for `.name`, and an array of authors has none | author `[{name: "a"}]` (`AuthorArrayRejected`) | also accept arrays of named persons; the corrected member also requires the feed-level name to be a string, where the source accepts any defined name such as `{name: 42}` | medium (not executed) | Atom.AuthorCheckAsWritten | Atom.AuthorCheck |
| packages/atom/src/utils.ts:163-165 | the content scan ends with a bare `return` (success) at the first entry that has an alternate link | an entry with only an alternate link followed by one with neither (`ContentScanStopsEarly`) | go on checking every entry | high (not executed) | Atom.ContentCheckAsWritten | Atom.ContentCheck |
| packages/core/src/schedule/index.ts:62 | `taskSuccessCallback` is passed as the `scheduleId` argument of execTask, and onSuccess is never called | any startup schedule: its run carries a function as schedule id and its success updates no last run | pass the id, then call `onSuccess(taskSuccessCallback)` | high (not executed) | Schedule.ScheduleManager.StartRunAsWritten | Schedule.ScheduleManager.StartRun |
| packages/core/src/schedule/index.ts:86-89 | the catch-up entry is stored without the job | an interval schedule whose last run's day plus N is today's day, then deleted: its timer keeps running | keep the job in the entry (`DeletedScheduleStopsItsTimer`) | high (not executed) | Schedule.ScheduleManager.CatchUpAsWritten | Schedule.ScheduleManager.CatchUp |
| packages/core/src/plugins/index.ts:436-443 | a plugin whose import rejects, or which has no `plugin` export, is never reported to the hook, whose count waits for every plugin name | two matching plugins, one of them not loadable: the hook hears at most one report of two, so allSettled is never emitted and no plugin becomes active (`RejectedLoadNeverSettlesAsWritten`, `ShortReportsNeverSettle`) | report the failed load as `error` to the hook (`RejectedLoadSettles`) | medium (not executed) | Plugins.PluginManager.LoadFailedAsWritten | Plugins.PluginManager.LoadFailed |
