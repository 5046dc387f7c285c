# alttp-queue-bot, modelled in Dafny

The bot polls speedrun.com for runs of *A Link to the Past* that are waiting
to be verified. For each new run it opens a thread in a Discord channel, posts
the run's link in that thread, and keeps a row per run in a small database.
The row records how far the bot got (`None`, then `ThreadCreated`, then
`MessageCreated`) so that a later polling cycle resumes instead of repeating
work. The thread is titled `"<player> - <category> in <time>"`. The category
is shown under its locally configured alias when there is one, preceded by
the run's subcategory label. The time is rendered like `1h23m45s`.

The model covers:

- the per-run lifecycle (`queue_bot.dfy`, module `QueueBot`): creating the
  thread, posting the message, `handle_run` and one polling cycle
  `run_once`. These are written as methods over a `Store` object (the runs
  table) and the Discord client object. The two steps and their driver are
  proved against pure step functions (`ThreadStep`, `MessageStep`, `Drive`).
  `HandleRun` is proved against the predicate `HandledAs`, which relates
  snapshots (`World`) of the table and the client before and after one run.
  `RunOnce` is proved to go through a chain of such snapshots, one
  `HandledAs` step per run in the queue. The lifecycle properties are lemmas
  about these functions;
- the Discord client (`discord_client.dfy`): the rate-limit descriptor read
  from response headers by a builder object, the channel-info cache with a
  time-to-live, and the thread and message requests;
- category naming (`category_repository.dfy`, and the older alias-free
  repository in `src_legacy.dfy`, proved to agree with the new one when no
  aliases are registered);
- the speedrun.com helpers (`src_api.dfy`): player names, error conversions
  and the accumulation loop of `get_runs`;
- the run records (`models.dfy`);
- `format_hms` for whole seconds, with its inverse (`utils.dfy`);
- `HashMap::from_iter` (`collections.dfy`).

All outside answers are inputs:

- Discord's responses and their headers, the clock, the request builders'
  verdicts, the database's failures and speedrun.com's item stream.
- Each run's answers are a `RunAnswers` value; the Discord client records
  the requests it sends in `requests`.
- Every sleep the bot takes is returned as a number of milliseconds, in the
  order it would be taken.

The model follows the code as written, including these points:

- `handle_run` writes the record back once, after both steps succeeded, not
  after each step. When the thread is created but the message fails, the
  stored row stays in `None`, and the next cycle asks Discord for a second
  thread for the same run (`QueueBot.FailedMessageOpensSecondThread`).
- `create_run_thread` in src/main.rs calls `category_name` with the run alone,
  which is the alias-free repository's signature. The repository the crate
  exports is the alias-aware one, where the one-argument form is
  `category_name_from_run`. The model uses the latter
  (`CategoryRepository.CategoryNameFromRun`). `LegacySrc.AgreesWithoutAliases`
  shows that the two give the same name when there are no aliases.
- `format_hms` renders `1h23m45s`, not the `1:23:45` that its doc comment
  (src/utils.rs:6-7) and its unit test (src/utils.rs:44-52) expect.

## Model

| member | source | states |
|---|---|---|
| Collections.IndexBy | src/main.rs:185-186 | every element's key is in the map, and every entry is an element of the list stored under its own key |
| Collections.IndexByLastWins | src/src/category_repository.rs:25-30 | when a key repeats, the map holds the last element with that key |
| Utils.NatToString | src/utils.rs:17-23 | the decimal rendering of a number is a non-empty string of digits |
| Utils.NatToStringValue | src/utils.rs:17-23 | the decimal rendering reads back as the same number |
| Utils.ZeroPad2 | src/utils.rs:13 | `{:02}` renders at least two digits, exactly two below 100 |
| Utils.ZeroPad2Value | src/utils.rs:13 | the zero-padded rendering reads back as the same number |
| Utils.ParseU64 | src/discord_client.rs:130-136 | a u64 parse succeeds only with a value below 2^64 |
| Utils.ParseNonZeroU64 | src/main.rs:126 | a NonZeroU64 parse yields a value in 1..2^64 and agrees with the u64 parse |
| Utils.ParseNatToString | src/main.rs:101-126 | an id rendered with `to_string` parses back to the same id, as u64 and as NonZeroU64 |
| Utils.Decompose | src/utils.rs:9-11 | hours·3600 + minutes·60 + seconds is the input, minutes and seconds are below 60, and hours is the input divided by 3600 |
| Utils.FormatHms | src/utils.rs:8-31 | the rendering holds only digits and the letters h, m, s |
| Utils.FormatHmsFieldWidths | src/utils.rs:12-29 | `{:02}` padding: the seconds field before the final `s` is exactly two digits worth the seconds modulo 60; with hours, the text before the `h` is the hours written unpadded and the minutes field between `h` and `m` is exactly two digits worth the minutes modulo 60; without hours, the minutes are written unpadded |
| Utils.FormatHmsRoundTrip | src/utils.rs:17-29 | parsing `"{h}h{mm}m{ss}s"` or `"{m}m{ss}s"` back recovers the number of seconds |
| Utils.FormatHmsInjective | src/utils.rs:17-29 | different durations get different renderings |
| Utils.FormatHmsShape | src/utils.rs:12-29 | the hours field appears iff the duration is at least an hour, and whole seconds never get a fractional part |
| Utils.FormatHmsExample | src/utils.rs:17-29 | 5025 s renders as `1h23m45s` and 1425 s as `23m45s` |
| Models.Rank | src/models.rs:7-11 | each state has a lifecycle position below 3 |
| Models.RankIsLifecycleOrder | src/models.rs:7-11 | the positions tell the states apart and order them `None < ThreadCreated < MessageCreated` |
| Models.UpdateRunFrom | src/models.rs:40-50 | the change set copies `id`, `submitted`, `thread_id` and `run_id` unchanged |
| Models.UpdateRunRoundTrip | src/models.rs:40-50 | under any injective text form of the states, the record is recovered from its change set |
| Models.Inserted | src/models.rs:53-61 | the stored row carries the insertable record's fields and the id the store assigned |
| Src.Name | src/src/mod.rs:124-131 | a user is named by the international form of their name, a guest by the given name |
| Src.Player | src/src/mod.rs:110-114 | `None` iff there are no players, else the first player's name |
| Src.FromApiError | src/src/mod.rs:29-33 | an API error becomes `ApiError` carrying it |
| Src.FromBuilderError | src/src/mod.rs:35-52 | each builder error becomes `QueryBuildError` carrying its message |
| Src.ConversionsKeepDetail | src/src/mod.rs:20-52 | the conversions never confuse an API error with a builder error, and lose nothing but a builder error's kind |
| Src.GetRuns | src/src/mod.rs:133-155 | a query that fails to build is the only error; otherwise the result is exactly the successful items of the stream |
| Src.SuccessesAppend | src/src/mod.rs:144-154 | the accumulation keeps stream order |
| Src.SuccessesMembers | src/src/mod.rs:144-154 | a run is in the result iff it arrived as a successful item |
| Src.SuccessesCount | src/src/mod.rs:144-154 | the result has one run per successful item |
| CategoryRepository.IndexCategories | src/src/category_repository.rs:25 | every category is indexed, each under its own id |
| CategoryRepository.IndexAliases | src/src/category_repository.rs:26-30 | every alias is indexed under its category's speedrun.com id, and each entry comes from some alias |
| CategoryRepository.New | src/src/category_repository.rs:23-32 | the repository holds both indexes |
| CategoryRepository.FirstSubcategory | src/src/category_repository.rs:59-71 | no subcategory variable gives `None`; otherwise only the first one is consulted, for the run's value and that value's label |
| CategoryRepository.SubcategoryName | src/src/category_repository.rs:51-57 | the subcategory name exists iff a subcategory was found, and is its label |
| CategoryRepository.NiceName | src/src/category_repository.rs:78-80 | the alias registered for the category's id, else the category's name |
| CategoryRepository.CategoryName | src/src/category_repository.rs:82-93 | `None` iff the id is unknown; otherwise `"<label> <nice name>"` with a subcategory, else the nice name |
| CategoryRepository.CategoryNameFromRun | src/src/category_repository.rs:95-97 | the name of the run's category under the run's chosen values |
| CategoryRepository.CategoryNameEndsWithNiceName | src/src/category_repository.rs:82-93 | a known category's display name always ends with its nice name |
| CategoryRepository.NiceNameOfNew | src/src/category_repository.rs:23-32 | after `new`, a category without an alias shows its name, and one with aliases shows the last alias given for it |
| CategoryRepository.NiceNameTestCase | src/src/category_repository.rs:107-131 | the repository's own example: the aliased category shows its alias, the other its name |
| LegacySrc.New | src/src.rs:104-110 | every category is indexed under its own id |
| LegacySrc.SubcategoryName | src/src.rs:124-133 | only the first subcategory variable is consulted; a missing value or label gives `None` |
| LegacySrc.CategoryName | src/src.rs:135-145 | `None` iff the run's category is unknown; otherwise `"<label> <name>"` or the name |
| LegacySrc.SameSubcategoryName | src/src.rs:124-133 | the old subcategory search finds the same label as the new one |
| LegacySrc.AgreesWithoutAliases | src/src.rs:135-145 | the old repository names every run as the new one does when no aliases are registered |
| DiscordClient.RemainingValue | src/discord_client.rs:130-136 | a remaining count is read only as a u64 |
| DiscordClient.Described | src/discord_client.rs:80-97 | a descriptor exists iff bucket, reset-after and remaining were each read from some header, and holds the last value read for each |
| DiscordClient.RateLimitInfoBuilder.constructor | src/discord_client.rs:110-116 | a new builder has read nothing |
| DiscordClient.RateLimitInfoBuilder.SetBucket | src/discord_client.rs:117-121 | a UTF-8 value replaces the bucket; anything else leaves every field as it was |
| DiscordClient.RateLimitInfoBuilder.SetResetAfter | src/discord_client.rs:123-129 | a readable value replaces the reset-after; anything else leaves every field as it was |
| DiscordClient.RateLimitInfoBuilder.SetRemaining | src/discord_client.rs:130-136 | a value that parses as u64 replaces the remaining count; anything else leaves every field as it was |
| DiscordClient.RateLimitInfoBuilder.Build | src/discord_client.rs:137-146 | a descriptor iff all three fields were read, made of exactly those values |
| DiscordClient.FromHeaders | src/discord_client.rs:80-97 | the header loop with the builder yields exactly the descriptor `Described` gives |
| DiscordClient.LastParsedSkipsOtherNames | src/discord_client.rs:82-95 | a header with another name does not change the last value read for a name |
| DiscordClient.IgnoresOtherHeaders | src/discord_client.rs:82-95 | inserting a header with none of the three names anywhere leaves the descriptor unchanged |
| DiscordClient.LastReadableWins | src/discord_client.rs:117-136 | of repeated headers, the last readable value wins and unreadable later ones do not displace it |
| DiscordClient.UnreadableValueIgnored | src/discord_client.rs:117-136 | a rate-limit header that is not UTF-8 or does not parse leaves the descriptor as it was |
| DiscordClient.Fetched.Replace | src/discord_client.rs:27-30 | replacing sets the item and stamps it with the current time |
| DiscordClient.Fetched.New | src/discord_client.rs:32-37 | a new entry holds the item, stamped with the current time |
| DiscordClient.Fetched.IsExpired | src/discord_client.rs:23-25 | an entry is expired iff strictly more than the time-to-live has elapsed since its fetch |
| DiscordClient.ExpiredIffOlderThanTtl | src/discord_client.rs:23-25 | an entry is still fresh exactly at the time-to-live and expired one tick later; a clock reading at or before the fetch never expires it |
| DiscordClient.ChannelLookup | src/discord_client.rs:171-192 | a fetch happens iff the entry is missing or expired; a fresh hit returns the cached item; a failed fetch returns the error and leaves the cache unchanged; a successful fetch is stored stamped now; other entries are untouched |
| DiscordClient.LookupAgainIsCached | src/discord_client.rs:175-182 | after a successful lookup, another within the time-to-live makes no request and gives the same item |
| DiscordClient.FailedFetchKeepsCache | src/discord_client.rs:175-189 | a failing channel request never changes the cache |
| DiscordClient.ThreadOutcome | src/discord_client.rs:194-217 | a refused name is a `ValidationError`; a failed request returns its own error; a body that does not decode is a `DeserializeBodyError`; success requires the request and the body to succeed, and carries the headers' descriptor and the thread |
| DiscordClient.MessageOutcome | src/discord_client.rs:219-232 | refused content is a `ValidationError`; a failed request returns its own error; success carries the response headers' descriptor |
| DiscordClient.ThreadRequests | src/discord_client.rs:198-213 | unless the name is refused, the thread request is sent last, with the channel's archive duration if the lookup produced one; a refused name sends at most the channel request |
| DiscordClient.MessageRequests | src/discord_client.rs:224-230 | the message request is sent iff the content is accepted |
| DiscordClient.ArchiveLookupFailureIgnored | src/discord_client.rs:198-212 | a failed channel lookup still lets the thread request go out, without an archive duration |
| DiscordClient.BotDiscordClient.constructor | src/discord_client.rs:150-164 | a new client has an empty cache and has sent nothing |
| DiscordClient.BotDiscordClient.Channel | src/discord_client.rs:171-192 | the cache and the requests change as `ChannelLookup` says, and `fn_` is applied to the item |
| DiscordClient.BotDiscordClient.CreateThread | src/discord_client.rs:194-217 | the cache changes as the lookup says, the requests sent are `ThreadRequests`, and the result is `ThreadOutcome` |
| DiscordClient.BotDiscordClient.CreateMessage | src/discord_client.rs:219-232 | the cache is untouched, the requests sent are `MessageRequests`, and the result is `MessageOutcome` |
| QueueBot.ThreadTitle | src/main.rs:88-95 | the title ends with ` in ` followed by the run's time as `format_hms` renders it |
| QueueBot.ThreadTitleNamesPlayer | src/main.rs:88-95 | the title starts with the first player's name, or `Unknown player`, followed by ` - ` |
| QueueBot.ThreadTitleNamesCategory | src/main.rs:88-95 | the title starts with the player text and ` - `, and between that and ` in <time>` stands the display name of the run's category when the repository knows it, else `Unknown category` |
| QueueBot.ThreadTitleTimeRecoverable | src/main.rs:88-95 | the title's last word parses back to the run's time |
| QueueBot.ThreadStep | src/main.rs:79-105 | a record not in `None` is returned unchanged with `Ok(None)`; for a record in `None`, success gives the new thread's id and `ThreadCreated` and returns the descriptor, and failure returns the record unchanged with the outcome's error |
| QueueBot.MessageTarget | src/main.rs:113-126 | a message is posted only for `ThreadCreated`; a `ThreadCreated` record whose thread id parses as a non-zero u64 targets exactly that id, and a target is only ever such an id; `InvalidState` arises iff the record is in `ThreadCreated` with no thread id; a thread id that does not parse is a `VariableParseError` carrying the parse error |
| QueueBot.MessageStep | src/main.rs:108-135 | a record not in `ThreadCreated` is untouched with `Ok(None)`; a target error is returned with the record unchanged; with a target, a successful post moves the record to `MessageCreated` and returns the descriptor, and a failed post returns the Discord error with the record unchanged; the only change is to `MessageCreated`, never to the thread id |
| QueueBot.SleepFor | src/main.rs:160-171 | a sleep of the reset-after iff a descriptor came back with no requests remaining |
| QueueBot.Drive | src/main.rs:160-171 | driving a record never moves its state backwards and keeps its id, run id and submission time; a failure leaves the record as it was, except after a thread was created for a record in `None`; a failed thread request stops the handling before the message step, with no sleep |
| QueueBot.DriveKeepsConsistency | src/main.rs:160-171 | a record has a thread id iff it is past `None`, before and after |
| QueueBot.InvalidStateOnlyWhenInconsistent | src/main.rs:116-125 | handling fails with `InvalidState` iff the record is in `ThreadCreated` without a thread id |
| QueueBot.DriveOkMeansMessageCreated | src/main.rs:160-175 | a handling that succeeds ends in `MessageCreated` |
| QueueBot.CompletedRunUntouched | src/main.rs:160-171 | a record in `MessageCreated` is left as it is, with no error and no sleep |
| QueueBot.NewRunCompletes | src/main.rs:160-171 | a new record with both calls succeeding ends in `MessageCreated` with the new thread's id, sleeping as both descriptors ask |
| QueueBot.UnpersistedThreadIsRecreated | src/main.rs:160-175 | when the message fails after the thread was created, the handling fails with the record in `ThreadCreated` in memory only |
| QueueBot.RateLimitedThreadSleeps | src/main.rs:160-201 | a thread request refused with a retry-after fails the handling with that very error, with no sleep of its own, so the cycle then sleeps for the retry-after |
| QueueBot.RateLimitedMessageSleeps | src/main.rs:160-201 | a message request refused with a retry-after, after the thread was created, fails the handling with that error after the thread's own sleep, so the cycle then sleeps for the retry-after |
| QueueBot.CompletedRunSendsNothing | src/main.rs:79-135 | a completed record sends no request to Discord |
| QueueBot.MessageGoesToNewThread | src/main.rs:101-128 | for a new record, the run's link is posted in the thread just created |
| QueueBot.CreateRunThread | src/main.rs:79-105 | the record and the result are `ThreadStep`'s; a record not in `None` causes no request and no cache change |
| QueueBot.CreateRunMessage | src/main.rs:108-135 | the record and the result are `MessageStep`'s; only a message into the record's thread can be sent |
| QueueBot.ReplaceById | src/main.rs:173-174 | a write-back replaces exactly the rows with the record's id and keeps every row's place |
| QueueBot.Store.Load | src/main.rs:184 | loading gives all rows, or the database error |
| QueueBot.Store.Insert | src/main.rs:154-156 | an insert appends the record with a fresh id, or fails and changes nothing |
| QueueBot.Store.Update | src/main.rs:173-174 | an update writes the record over its row, or fails and changes nothing |
| QueueBot.WriteBackNoRegress | src/main.rs:173-174 | writing back a record that moved forward regresses no row |
| QueueBot.FreshRecord | src/main.rs:148-153 | a first-seen run is recorded in `None`, with no thread, under its speedrun.com id, with its submission time |
| QueueBot.TakeRecord | src/main.rs:144-158 | the record is taken out of the map, or inserted fresh; a failed insert is a `DatabaseError` |
| QueueBot.DriveRequestsAskForThread | src/main.rs:79-105 | a record in `None` whose title builds makes the handling ask for a thread with that title under the queue channel |
| QueueBot.DriveSteps | src/main.rs:160-171 | the record, result and sleeps are `Drive`'s, and the cache and the requests change as `DriveRequests` says |
| QueueBot.DriveRecord | src/main.rs:160-175 | the sleeps and the result are `Drive`'s; the row is written back iff both steps and the update succeed; no row regresses |
| QueueBot.HandleRun | src/main.rs:137-176 | the table, the map and the client go from the old to the new snapshot as `HandledAs` says: the run's key leaves the map; a failed insert ends the handling with nothing else changed; otherwise the result and sleeps are `Drive`'s, the table changes only by the insert and, after two successful steps, the write-back, and the requests sent are `DriveRequests`; no row regresses |
| QueueBot.FailedMessageOpensSecondThread | src/main.rs:145-190 | when the thread is created but the message fails, the handling fails and the row stays as it was, in `None`; the next cycle, indexing the table afresh, finds the same row and asks Discord for a thread for the run a second time |
| QueueBot.RetrySleep | src/main.rs:190-201 | a sleep of the retry-after iff the failure was a rate-limited Discord error |
| QueueBot.HandleQueue | src/main.rs:189-206 | starting from the given map and the current table and client, the i-th run of the queue is handled from the i-th snapshot to the next as `HandledAs` says, whatever the earlier results were; the last snapshot is the final state; the sleeps are each run's own, then its retry-after, in order; no row regresses |
| QueueBot.RunOnce | src/main.rs:178-208 | a failed load or query build is the only error and changes nothing; otherwise the cycle succeeds, starts from the whole table indexed by run id, handles the i-th run of the queue from the i-th snapshot to the next as `HandledAs` says whatever the earlier results were, ends in the last snapshot, and logs each run's sleeps then its retry-after in order; no row regresses |

## Left out

- Floating point is not modelled:
  - speedrun.com's primary time is taken in whole seconds; the fractional branch of `format_hms` and the saturating `as u64` cast are left out;
  - `reset_after` is kept in milliseconds. Reading it from the header and `secs_to_millis` together are the parameter `parseResetAfter`.
- HTTP is not performed:
  - twilight's requests, `fetch_channel`, speedrun.com's queries, `get_run`, `get_categories` and both `new_with_fetch` constructors are left out;
  - their answers are inputs: `ThreadAnswers`, `MessageAnswers`, `RunAnswers`, the `fetch` argument and the item stream.
- `http_error_to_ratelimit` is not modelled. It inspects twilight's error internals, so a failed exchange carries its classification as `HttpFailure.retryAfterMillis`.
- UTF-8 decoding of header values is not modelled: the decoding outcome is part of the input (`HeaderValue`).
- The kinds of `ParseIntError` are not distinguished.
- The text form of `RunState` comes from a derive that is not part of this model:
  - `Models.UpdateRunFrom` takes it as a parameter;
  - the store keeps records rather than text rows, and `Models.UpdateRunRoundTrip` shows the change set loses nothing.
- The database is modelled as a list of rows with sequential ids. SQL, the schema, the aliases query and `i32` overflow of ids are left out.
- The channel cache is a plain map: `DashMap`'s concurrency is left out.
- `Fetched::replace` is modelled as storing a new value in the map, since the entry is not shared.
- Each cache lookup reads the clock once (`now`). In the code, `replace` and `new` read it again after the fetch.
- `Fetched::get` is left out as a plain field access.
- `main`, environment variables (`new_from_env`, `VariableMissing` is only a constructor here), logging with `println!`, the polling interval and the migrations are left out.
- The verification status fields of speedrun.com runs are left out; no function in the modelled code reads them.
- src/error.rs, src/lib.rs, src/schema.rs, src/models/runs.rs, src/models/aliases.rs and src/bin are not part of this model.
- QueueBot.RunOnce: the sleeps are returned as a list apart from the client's request log, so the order of sleeps relative to Discord requests is not modelled. Within each, the order is.
- QueueBot.HandleRun: it requires every record in the run-id map to be a row of the table, stored under its run id, and the table's ids to be distinct. `run_once` builds the map from the table this way; the code itself does not check it. The requirement is what lets the contract state that no row regresses.
