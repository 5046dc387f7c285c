/** The bot's per-run lifecycle (src/main.rs): for each run waiting in the
    speedrun.com queue, open a Discord thread, post the run's link in it, and
    keep a record of how far it got in the runs table.

    Discord's and speedrun.com's answers are inputs (`RunAnswers`,
    `DiscordClient.ThreadAnswers`, the item stream of `Src.GetRuns`), the
    runs table is the `Store` object, and every sleep the bot would take is
    returned, in order, as a number of milliseconds. */
module QueueBot {
  import opened Wrappers
  import opened Models
  import Utils
  import Src
  import CategoryRepository
  import Collections
  import DC = DiscordClient

  /** `BotError`: everything a run's handling, or one polling cycle, can fail with.
      `InvalidState` carries the record's id and state. */
  datatype BotError =
    | VariableMissing(variable: string)
    | VariableParseError(parseError: Utils.ParseIntError)
    | DatabaseError(reason: string)
    | SRCError(srcError: Src.SRCError)
    | DiscordError(discordError: DC.DiscordError)
    | InvalidState(recordId: int, state: RunState)

  function OrElse(o: Option<string>, default: string): string
  {
    if o.Some? then o.value else default
  }

  /** The thread title: `"<player> - <category> in <time>"`, with a placeholder
      for an unknown player or category. */
  function ThreadTitle(srcRun: Src.SRCRun, categories: CategoryRepository.Repository): (t: string)
    ensures var f := Utils.FormatHms(srcRun.primarySecs);
      |t| >= |f| + 4 && t[|t| - |f| - 4..] == " in " + f
  {
    var head := OrElse(Src.Player(srcRun), "Unknown player") + " - "
      + OrElse(CategoryRepository.CategoryNameFromRun(categories, srcRun), "Unknown category");
    var tail := " in " + Utils.FormatHms(srcRun.primarySecs);
    assert (head + tail)[|head|..] == tail;
    head + tail
  }

  /** The text after the last space. */
  function LastWord(s: string): (w: string)
    ensures ' ' !in w
  {
    if s == [] || s[|s| - 1] == ' ' then []
    else LastWord(s[..|s| - 1]) + [s[|s| - 1]]
  }

  lemma {:induction false} LastWordAfterSpace(x: string, w: string)
    requires ' ' !in w
    ensures LastWord(x + " " + w) == w
  {
    if w == [] {
      assert x + " " + w == x + " ";
    } else {
      var w0 := w[..|w| - 1];
      assert (x + " " + w)[..|x + " " + w| - 1] == x + " " + w0;
      LastWordAfterSpace(x, w0);
      assert w0 + [w[|w| - 1]] == w;
    }
  }

  /** The title starts with the player's name, or the placeholder. */
  lemma ThreadTitleNamesPlayer(srcRun: Src.SRCRun, categories: CategoryRepository.Repository)
    ensures var t := ThreadTitle(srcRun, categories);
      && (srcRun.players != [] ==> Src.Name(srcRun.players[0]) + " - " <= t)
      && (srcRun.players == [] ==> "Unknown player - " <= t)
  {
    var who := OrElse(Src.Player(srcRun), "Unknown player");
    var rest := OrElse(CategoryRepository.CategoryNameFromRun(categories, srcRun), "Unknown category")
      + " in " + Utils.FormatHms(srcRun.primarySecs);
    assert ThreadTitle(srcRun, categories) == (who + " - ") + rest;
  }

  /** Between the player's `" - "` and the time's `" in "` stands the run's
      category under its display name, or `Unknown category` when the
      repository does not know the run's category. */
  lemma ThreadTitleNamesCategory(srcRun: Src.SRCRun, categories: CategoryRepository.Repository)
    ensures var t := ThreadTitle(srcRun, categories);
      var p := OrElse(Src.Player(srcRun), "Unknown player");
      var f := Utils.FormatHms(srcRun.primarySecs);
      var name := CategoryRepository.CategoryName(categories, srcRun.category, srcRun.values);
      && |p| + 3 <= |t| - |f| - 4 && t[..|p| + 3] == p + " - "
      && (srcRun.category in categories.categories ==> t[|p| + 3..|t| - |f| - 4] == name.value)
      && (srcRun.category !in categories.categories ==> t[|p| + 3..|t| - |f| - 4] == "Unknown category")
  {
    var t := ThreadTitle(srcRun, categories);
    var p := OrElse(Src.Player(srcRun), "Unknown player");
    var c := OrElse(CategoryRepository.CategoryNameFromRun(categories, srcRun), "Unknown category");
    var f := Utils.FormatHms(srcRun.primarySecs);
    assert t == (p + " - ") + c + (" in " + f);
    assert t[..|p| + 3] == p + " - ";
    assert t[|p| + 3..|t| - |f| - 4] == c;
  }

  /** The run's time can be read back from the title's last word. */
  lemma ThreadTitleTimeRecoverable(srcRun: Src.SRCRun, categories: CategoryRepository.Repository)
    ensures Utils.ParseHms(LastWord(ThreadTitle(srcRun, categories))) == Some(srcRun.primarySecs)
  {
    var f := Utils.FormatHms(srcRun.primarySecs);
    var t := ThreadTitle(srcRun, categories);
    var head := t[..|t| - |f| - 1];
    assert t[|t| - |f| - 1..] == " " + f;
    assert t == head + " " + f;
    forall i | 0 <= i < |f| ensures f[i] != ' ' { }
    LastWordAfterSpace(head, f);
    Utils.FormatHmsRoundTrip(srcRun.primarySecs);
  }

  // ---------------------------------------------------------------------------
  // The two steps, on values

  /** `create_run_thread` on values: the record afterwards and the step's
      result, given Discord's outcome for the thread request. */
  function ThreadStep(run: Run, outcome: Result<(Option<DC.RateLimitInfo>, DC.ChannelInfo), DC.DiscordError>)
    : (s: (Run, Result<Option<DC.RateLimitInfo>, DC.DiscordError>))
    ensures run.state != StateNone ==> s == (run, Ok(None))
    ensures s.1.Err? ==> s.0 == run && outcome.Err? && s.1.error == outcome.error
    ensures s.0 != run ==> (outcome.Ok?
      && s.0 == run.(threadId := Some(Utils.NatToString(outcome.value.1.id)), state := ThreadCreated))
    ensures run.state == StateNone && outcome.Ok? ==> s.0.state == ThreadCreated && s.1 == Ok(outcome.value.0)
    ensures run.state == StateNone && outcome.Err? ==> s == (run, Err(outcome.error))
    ensures Rank(run.state) <= Rank(s.0.state)
  {
    if run.state != StateNone then (run, Ok(None))
    else match outcome
      case Ok((rli, c)) =>
        (run.(threadId := Some(Utils.NatToString(c.id)), state := ThreadCreated), Ok(rli))
      case Err(e) => (run, Err(e))
  }

  /** Where `create_run_message` posts: nowhere (`Ok(None)`) unless the record
      is in `ThreadCreated`; then the thread its `threadId` names, which must be
      present and parse as a non-zero 64-bit id. */
  function MessageTarget(run: Run): (r: Result<Option<DC.ChannelId>, BotError>)
    ensures run.state != ThreadCreated ==> r == Ok(None)
    ensures r.Ok? && r.value.Some? ==> (run.state == ThreadCreated && run.threadId.Some?
      && Utils.ParseNonZeroU64(run.threadId.value) == Ok(r.value.value))
    ensures r.Err? && r.error.InvalidState? <==> run.state == ThreadCreated && run.threadId.None?
    ensures run.state == ThreadCreated && run.threadId.Some? && Utils.ParseNonZeroU64(run.threadId.value).Err? ==>
      r == Err(VariableParseError(Utils.ParseNonZeroU64(run.threadId.value).error))
    ensures run.state == ThreadCreated && run.threadId.Some? && Utils.ParseNonZeroU64(run.threadId.value).Ok? ==>
      r == Ok(Some(Utils.ParseNonZeroU64(run.threadId.value).value))
  {
    if run.state != ThreadCreated then Ok(None)
    else if run.threadId.None? then Err(InvalidState(run.id, run.state))
    else match Utils.ParseNonZeroU64(run.threadId.value)
      case Ok(n) => Ok(Some(n))
      case Err(e) => Err(VariableParseError(e))
  }

  /** `create_run_message` on values. */
  function MessageStep(run: Run, outcome: Result<Option<DC.RateLimitInfo>, DC.DiscordError>)
    : (s: (Run, Result<Option<DC.RateLimitInfo>, BotError>))
    ensures run.state != ThreadCreated ==> s == (run, Ok(None))
    ensures s.1.Err? ==> s.0 == run
    ensures s.0 != run ==> s.0 == run.(state := MessageCreated)
    ensures MessageTarget(run).Err? ==> s == (run, Err(MessageTarget(run).error))
    ensures MessageTarget(run).Ok? && MessageTarget(run).value.Some? && outcome.Ok? ==>
      s == (run.(state := MessageCreated), Ok(outcome.value))
    ensures MessageTarget(run).Ok? && MessageTarget(run).value.Some? && outcome.Err? ==>
      s == (run, Err(DiscordError(outcome.error)))
    ensures Rank(run.state) <= Rank(s.0.state)
  {
    match MessageTarget(run)
    case Err(e) => (run, Err(e))
    case Ok(None) => (run, Ok(None))
    case Ok(Some(_)) =>
      match outcome
      case Ok(rli) => (run.(state := MessageCreated), Ok(rli))
      case Err(e) => (run, Err(DiscordError(e)))
  }

  /** The sleep a returned descriptor asks for: its reset-after, when no
      request is left in the bucket. */
  function SleepFor(rli: Option<DC.RateLimitInfo>): (ms: seq<nat>)
    ensures ms != [] <==> rli.Some? && rli.value.remaining == 0
    ensures ms != [] ==> ms == [rli.value.resetAfterMillis]
  {
    if rli.Some? && rli.value.remaining == 0 then [rli.value.resetAfterMillis] else []
  }

  /** A record driven through both steps: the record, the result, and the
      sleeps taken along the way. */
  datatype Handled = Handled(run: Run, result: Result<(), BotError>, sleeps: seq<nat>)

  /** The two steps of `handle_run`, in order: the message step runs only if
      the thread step succeeded. State never moves backwards and the record
      keeps its identity; a failed handling leaves the record as it was, unless
      the failure came after a thread was created for a record in `None`. */
  function Drive(
    start: Run,
    thread: Result<(Option<DC.RateLimitInfo>, DC.ChannelInfo), DC.DiscordError>,
    message: Result<Option<DC.RateLimitInfo>, DC.DiscordError>): (h: Handled)
    ensures Rank(start.state) <= Rank(h.run.state)
    ensures h.run.id == start.id && h.run.runId == start.runId && h.run.submitted == start.submitted
    ensures h.result.Err? ==> h.run == start || (start.state == StateNone && thread.Ok? && h.run.state == ThreadCreated)
    ensures start.state == StateNone && thread.Err? ==> h == Handled(start, Err(DiscordError(thread.error)), [])
  {
    var t := ThreadStep(start, thread);
    if t.1.Err? then Handled(t.0, Err(DiscordError(t.1.error)), [])
    else
      var m := MessageStep(t.0, message);
      if m.1.Err? then Handled(m.0, Err(m.1.error), SleepFor(t.1.value))
      else Handled(m.0, Ok(()), SleepFor(t.1.value) + SleepFor(m.1.value))
  }

  /** A record whose thread reference matches its state keeps it so. */
  lemma DriveKeepsConsistency(
    start: Run,
    thread: Result<(Option<DC.RateLimitInfo>, DC.ChannelInfo), DC.DiscordError>,
    message: Result<Option<DC.RateLimitInfo>, DC.DiscordError>)
    requires Consistent(start)
    ensures Consistent(Drive(start, thread, message).run)
  {
  }

  /** `InvalidState` arises only from a record in `ThreadCreated` with no thread. */
  lemma InvalidStateOnlyWhenInconsistent(
    start: Run,
    thread: Result<(Option<DC.RateLimitInfo>, DC.ChannelInfo), DC.DiscordError>,
    message: Result<Option<DC.RateLimitInfo>, DC.DiscordError>)
    ensures var h := Drive(start, thread, message);
      h.result.Err? && h.result.error.InvalidState? <==>
        start.state == ThreadCreated && start.threadId.None?
  {
  }

  /** A handling that succeeds leaves the record in `MessageCreated`: a thread
      just created is always found again by the message step, because the id it
      stores parses back to the channel id. */
  lemma {:induction false} DriveOkMeansMessageCreated(
    start: Run,
    thread: Result<(Option<DC.RateLimitInfo>, DC.ChannelInfo), DC.DiscordError>,
    message: Result<Option<DC.RateLimitInfo>, DC.DiscordError>)
    ensures Drive(start, thread, message).result.Ok? ==> Drive(start, thread, message).run.state == MessageCreated
  {
    if start.state == StateNone && thread.Ok? {
      Utils.ParseNatToString(thread.value.1.id);
    }
  }

  /** A record already in `MessageCreated` is left alone: no change, no error,
      no sleep. */
  lemma CompletedRunUntouched(
    start: Run,
    thread: Result<(Option<DC.RateLimitInfo>, DC.ChannelInfo), DC.DiscordError>,
    message: Result<Option<DC.RateLimitInfo>, DC.DiscordError>)
    requires start.state == MessageCreated
    ensures Drive(start, thread, message) == Handled(start, Ok(()), [])
  {
  }

  /** The happy path for a new record: a thread, then a message in it. */
  lemma {:induction false} NewRunCompletes(
    start: Run, rli: Option<DC.RateLimitInfo>, c: DC.ChannelInfo, rli2: Option<DC.RateLimitInfo>)
    requires start.state == StateNone
    ensures Drive(start, Ok((rli, c)), Ok(rli2)) == Handled(
      start.(threadId := Some(Utils.NatToString(c.id)), state := MessageCreated),
      Ok(()),
      SleepFor(rli) + SleepFor(rli2))
  {
    Utils.ParseNatToString(c.id);
  }

  /** When the thread is created but posting the message fails, the handling
      fails with the record in `ThreadCreated` in memory only: `handle_run`
      does not write it (see `FailedMessageOpensSecondThread` for what the
      next cycle then does). */
  lemma {:induction false} UnpersistedThreadIsRecreated(
    start: Run, rli: Option<DC.RateLimitInfo>, c: DC.ChannelInfo, e: DC.DiscordError)
    requires start.state == StateNone
    ensures var h := Drive(start, Ok((rli, c)), Err(e));
      h.result == Err(DiscordError(e)) && h.run.state == ThreadCreated
  {
    Utils.ParseNatToString(c.id);
  }

  /** A thread request refused with a retry-after fails the handling with that
      very error, so the cycle then sleeps for the retry-after. */
  lemma RateLimitedThreadSleeps(
    start: Run, a: RunAnswers, parseResetAfter: string -> Option<nat>, f: DC.HttpFailure, ms: nat)
    requires start.state == StateNone
    requires a.thread.buildError.None? && a.thread.exec == Err(DC.HttpError(f)) && f.retryAfterMillis == Some(ms)
    ensures var h := Drive(start, DC.ThreadOutcome(a.thread, parseResetAfter), DC.MessageOutcome(a.message, parseResetAfter));
      h.result == Err(DiscordError(DC.HttpError(f))) && h.sleeps == [] && RetrySleep(h.result) == [ms]
  {
  }

  /** Likewise for the message request, once the thread is created: the sleeps
      taken are the thread's descriptor's, then the retry-after. */
  lemma {:induction false} RateLimitedMessageSleeps(
    start: Run, a: RunAnswers, parseResetAfter: string -> Option<nat>, f: DC.HttpFailure, ms: nat)
    requires start.state == StateNone && DC.ThreadOutcome(a.thread, parseResetAfter).Ok?
    requires a.message.buildError.None? && a.message.exec == Err(DC.HttpError(f)) && f.retryAfterMillis == Some(ms)
    ensures var h := Drive(start, DC.ThreadOutcome(a.thread, parseResetAfter), DC.MessageOutcome(a.message, parseResetAfter));
      && h.result == Err(DiscordError(DC.HttpError(f)))
      && h.sleeps == SleepFor(DC.ThreadOutcome(a.thread, parseResetAfter).value.0)
      && RetrySleep(h.result) == [ms]
  {
    Utils.ParseNatToString(DC.ThreadOutcome(a.thread, parseResetAfter).value.1.id);
  }

  /** The messages `create_run_message` sends for a record. */
  function MessageCalls(run: Run, weblink: string, a: DC.MessageAnswers): seq<DC.Request>
  {
    match MessageTarget(run)
    case Ok(Some(c)) => DC.MessageRequests(c, weblink, a)
    case _ => []
  }

  /** The requests `handle_run` sends for a record, given the channel lookup `l`
      the thread step would make. */
  function DriveRequests(
    start: Run, srcRun: Src.SRCRun, categories: CategoryRepository.Repository,
    l: DC.Lookup, channelId: DC.ChannelId, a: RunAnswers,
    parseResetAfter: string -> Option<nat>): seq<DC.Request>
  {
    var t := ThreadStep(start, DC.ThreadOutcome(a.thread, parseResetAfter));
    (if start.state == StateNone then DC.ThreadRequests(l, channelId, ThreadTitle(srcRun, categories), a.thread) else [])
    + (if t.1.Err? then [] else MessageCalls(t.0, srcRun.weblink, a.message))
  }

  /** A completed record sends nothing. */
  lemma CompletedRunSendsNothing(
    start: Run, srcRun: Src.SRCRun, categories: CategoryRepository.Repository,
    l: DC.Lookup, channelId: DC.ChannelId, a: RunAnswers, parseResetAfter: string -> Option<nat>)
    requires start.state == MessageCreated
    ensures DriveRequests(start, srcRun, categories, l, channelId, a, parseResetAfter) == []
  {
  }

  /** For a new record whose thread is created, the run's link is posted in
      that very thread. */
  lemma {:induction false} MessageGoesToNewThread(
    start: Run, srcRun: Src.SRCRun, categories: CategoryRepository.Repository,
    l: DC.Lookup, channelId: DC.ChannelId, a: RunAnswers, parseResetAfter: string -> Option<nat>)
    requires start.state == StateNone
    requires DC.ThreadOutcome(a.thread, parseResetAfter).Ok? && a.message.buildError.None?
    ensures var rs := DriveRequests(start, srcRun, categories, l, channelId, a, parseResetAfter);
      |rs| > 0 && rs[|rs| - 1] == DC.CreateMessageRequest(
        DC.ThreadOutcome(a.thread, parseResetAfter).value.1.id, srcRun.weblink)
  {
    Utils.ParseNatToString(DC.ThreadOutcome(a.thread, parseResetAfter).value.1.id);
  }

  // ---------------------------------------------------------------------------
  // The two steps, on the record in place

  /** `create_run_thread`. Only a record in `None` gets a thread; any other
      record is returned as it is, with no request sent. */
  method CreateRunThread(
    srcRun: Src.SRCRun, run: Run, client: DC.BotDiscordClient,
    categories: CategoryRepository.Repository, a: DC.ThreadAnswers,
    parseResetAfter: string -> Option<nat>)
    returns (updated: Run, r: Result<Option<DC.RateLimitInfo>, DC.DiscordError>)
    modifies client
    ensures (updated, r) == ThreadStep(run, DC.ThreadOutcome(a, parseResetAfter))
    ensures run.state != StateNone ==>
      client.channels == old(client.channels) && client.requests == old(client.requests)
    ensures run.state == StateNone ==>
      var l := DC.ChannelLookup(old(client.channels), client.channelId, client.channelInfoTtl, a.now, a.channelFetch);
      client.channels == l.cache
      && client.requests == old(client.requests) + DC.ThreadRequests(l, client.channelId, ThreadTitle(srcRun, categories), a)
  {
    updated := run;
    if run.state != StateNone {
      return updated, Ok(None);
    }
    var title := ThreadTitle(srcRun, categories);
    var res := client.CreateThread(title, a, parseResetAfter);
    match res {
      case Ok((rli, c)) =>
        updated := updated.(threadId := Some(Utils.NatToString(c.id)));
        updated := updated.(state := ThreadCreated);
        r := Ok(rli);
      case Err(e) =>
        r := Err(e);
    }
  }

  /** `create_run_message`. Only a record in `ThreadCreated` gets a message, in
      the thread its `threadId` names. */
  method CreateRunMessage(
    srcRun: Src.SRCRun, run: Run, client: DC.BotDiscordClient, a: DC.MessageAnswers,
    parseResetAfter: string -> Option<nat>)
    returns (updated: Run, r: Result<Option<DC.RateLimitInfo>, BotError>)
    modifies client
    ensures (updated, r) == MessageStep(run, DC.MessageOutcome(a, parseResetAfter))
    ensures client.channels == old(client.channels)
    ensures client.requests == old(client.requests) + MessageCalls(run, srcRun.weblink, a)
  {
    updated := run;
    if run.state != ThreadCreated {
      return updated, Ok(None);
    }
    if run.threadId.None? {
      return updated, Err(InvalidState(run.id, run.state));
    }
    var parsed := Utils.ParseNonZeroU64(run.threadId.value);
    if parsed.Err? {
      return updated, Err(VariableParseError(parsed.error));
    }
    var channel: DC.ChannelId := parsed.value;
    var res := client.CreateMessage(channel, srcRun.weblink, a, parseResetAfter);
    if res.Err? {
      return updated, Err(DiscordError(res.error));
    }
    updated := updated.(state := MessageCreated);
    r := Ok(res.value);
  }

  // ---------------------------------------------------------------------------
  // The runs table

  /** The row replaced by a record with the same id; an update that matches no
      row changes nothing. */
  function ReplaceById(rows: seq<Run>, run: Run): (r: seq<Run>)
    ensures |r| == |rows|
    ensures forall i :: 0 <= i < |rows| ==> r[i].id == rows[i].id
    ensures forall i :: 0 <= i < |rows| ==> r[i] == if rows[i].id == run.id then run else rows[i]
  {
    seq(|rows|, i requires 0 <= i < |rows| => if rows[i].id == run.id then run else rows[i])
  }

  predicate UniqueIds(rows: seq<Run>)
  {
    forall i, j :: 0 <= i < j < |rows| ==> rows[i].id != rows[j].id
  }

  /** The runs table: its rows and the next id it will assign. */
  class Store {
    var rows: seq<Run>
    var nextId: int

    ghost predicate Valid()
      reads this
    {
      UniqueIds(rows) && forall i :: 0 <= i < |rows| ==> rows[i].id < nextId
    }

    constructor ()
      ensures rows == [] && nextId == 1 && Valid()
    {
      rows := [];
      nextId := 1;
    }

    /** Loading every row; `failure` is the database's error, if any. */
    method Load(failure: Option<string>) returns (r: Result<seq<Run>, string>)
      ensures failure.Some? ==> r == Err(failure.value)
      ensures failure.None? ==> r == Ok(rows)
    {
      if failure.Some? {
        return Err(failure.value);
      }
      return Ok(rows);
    }

    /** Inserting a record; the store assigns its id. */
    method Insert(n: NewRun, failure: Option<string>) returns (r: Result<Run, string>)
      requires Valid()
      modifies this
      ensures Valid()
      ensures failure.Some? ==> r == Err(failure.value) && rows == old(rows) && nextId == old(nextId)
      ensures failure.None? ==>
        r == Ok(Inserted(n, old(nextId))) && rows == old(rows) + [r.value] && nextId == old(nextId) + 1
    {
      if failure.Some? {
        return Err(failure.value);
      }
      var run := Inserted(n, nextId);
      rows := rows + [run];
      nextId := nextId + 1;
      r := Ok(run);
    }

    /** Writing a record back over the row with its id. */
    method Update(run: Run, failure: Option<string>) returns (r: Result<(), string>)
      requires Valid()
      modifies this
      ensures Valid() && nextId == old(nextId)
      ensures failure.Some? ==> r == Err(failure.value) && rows == old(rows)
      ensures failure.None? ==> r == Ok(()) && rows == ReplaceById(old(rows), run)
    {
      if failure.Some? {
        return Err(failure.value);
      }
      rows := ReplaceById(rows, run);
      r := Ok(());
    }
  }

  /** Every stored row keeps its place, id and run id, and its state never
      moves backwards. */
  ghost predicate NoRegress(before: seq<Run>, after: seq<Run>)
  {
    && |before| <= |after|
    && forall i :: 0 <= i < |before| ==>
         && after[i].id == before[i].id && after[i].runId == before[i].runId
         && Rank(before[i].state) <= Rank(after[i].state)
  }

  lemma NoRegressTransitive(a: seq<Run>, b: seq<Run>, c: seq<Run>)
    requires NoRegress(a, b) && NoRegress(b, c)
    ensures NoRegress(a, c)
  {
  }

  lemma SameIdSameRow(rows: seq<Run>, x: Run, y: Run)
    requires UniqueIds(rows) && x in rows && y in rows && x.id == y.id
    ensures x == y
  {
  }

  /** Writing back a record that has moved forward does not regress the table. */
  lemma {:induction false} WriteBackNoRegress(rows: seq<Run>, start: Run, run: Run)
    requires UniqueIds(rows) && start in rows
    requires run.id == start.id && run.runId == start.runId && Rank(start.state) <= Rank(run.state)
    ensures NoRegress(rows, ReplaceById(rows, run))
  {
    var after := ReplaceById(rows, run);
    forall i | 0 <= i < |rows|
      ensures after[i].id == rows[i].id && after[i].runId == rows[i].runId
      ensures Rank(rows[i].state) <= Rank(after[i].state)
    {
      if rows[i].id == run.id {
        SameIdSameRow(rows, rows[i], start);
      }
    }
  }

  /** The records of a run id map are rows of the table, under their run id. */
  ghost predicate Indexed(runsById: map<string, Run>, rows: seq<Run>)
  {
    forall k :: k in runsById ==> runsById[k].runId == k && runsById[k] in rows
  }

  // ---------------------------------------------------------------------------
  // handle_run and run_once

  /** The outside world's answers for handling one run. */
  datatype RunAnswers = RunAnswers(
    insertFailure: Option<string>,
    thread: DC.ThreadAnswers,
    message: DC.MessageAnswers,
    updateFailure: Option<string>)

  /** The record inserted for a run seen for the first time. */
  function FreshRecord(srcRun: Src.SRCRun): (n: NewRun)
    ensures n.state == StateNone && n.threadId == None
    ensures n.runId == srcRun.id && n.submitted == srcRun.submitted
  {
    NewRun(srcRun.submitted, None, StateNone, srcRun.id)
  }

  /** The first half of `handle_run`: the run's record is taken out of
      `runsById`, or a fresh one is inserted when there is none. */
  method TakeRecord(srcRun: Src.SRCRun, runsById: map<string, Run>, store: Store, insertFailure: Option<string>)
    returns (remaining: map<string, Run>, start: Result<Run, BotError>)
    requires store.Valid() && Indexed(runsById, store.rows)
    modifies store
    ensures store.Valid() && Indexed(remaining, store.rows)
    ensures remaining == runsById - {srcRun.id}
    ensures srcRun.id in runsById ==>
      start == Ok(runsById[srcRun.id]) && store.rows == old(store.rows) && store.nextId == old(store.nextId)
    ensures srcRun.id !in runsById && insertFailure.Some? ==>
      start == Err(DatabaseError(insertFailure.value)) && store.rows == old(store.rows) && store.nextId == old(store.nextId)
    ensures srcRun.id !in runsById && insertFailure.None? ==>
      && start == Ok(Inserted(FreshRecord(srcRun), old(store.nextId)))
      && store.rows == old(store.rows) + [start.value] && store.nextId == old(store.nextId) + 1
    ensures start.Ok? ==> start.value in store.rows && start.value.runId == srcRun.id
    ensures start.Ok? ==> forall k :: k in remaining ==> remaining[k].id != start.value.id
  {
    remaining := runsById - {srcRun.id};
    if srcRun.id in runsById {
      start := Ok(runsById[srcRun.id]);
      forall k | k in remaining
        ensures remaining[k].id != start.value.id
      {
        SameIdOrDistinct(store.rows, remaining[k], start.value);
      }
      return;
    }
    var inserted := store.Insert(FreshRecord(srcRun), insertFailure);
    if inserted.Err? {
      return remaining, Err(DatabaseError(inserted.error));
    }
    start := Ok(inserted.value);
    forall k | k in remaining
      ensures remaining[k].id != start.value.id
    {
      var i :| 0 <= i < |old(store.rows)| && old(store.rows)[i] == remaining[k];
      assert store.rows[i] == remaining[k];
    }
  }

  /** Both steps of `handle_run` on a record, against the client: the message
      step runs only if the thread step succeeded. */
  method DriveSteps(
    srcRun: Src.SRCRun, start: Run, client: DC.BotDiscordClient,
    categories: CategoryRepository.Repository, a: RunAnswers, parseResetAfter: string -> Option<nat>)
    returns (h: Handled)
    modifies client
    ensures h == Drive(start, DC.ThreadOutcome(a.thread, parseResetAfter), DC.MessageOutcome(a.message, parseResetAfter))
    ensures var l := DC.ChannelLookup(old(client.channels), client.channelId, client.channelInfoTtl, a.thread.now, a.thread.channelFetch);
      && client.channels == (if start.state == StateNone then l.cache else old(client.channels))
      && client.requests == old(client.requests)
           + DriveRequests(start, srcRun, categories, l, client.channelId, a, parseResetAfter)
  {
    var run, t := CreateRunThread(srcRun, start, client, categories, a.thread, parseResetAfter);
    if t.Err? {
      return Handled(start, Err(DiscordError(t.error)), []);
    }
    var m;
    run, m := CreateRunMessage(srcRun, run, client, a.message, parseResetAfter);
    if m.Err? {
      return Handled(run, Err(m.error), SleepFor(t.value));
    }
    h := Handled(run, Ok(()), SleepFor(t.value) + SleepFor(m.value));
  }

  /** The second half of `handle_run`: both steps are driven on the record,
      which is written back only when both succeeded. */
  method DriveRecord(
    srcRun: Src.SRCRun, start: Run, store: Store, client: DC.BotDiscordClient,
    categories: CategoryRepository.Repository, a: RunAnswers, parseResetAfter: string -> Option<nat>)
    returns (r: Result<(), BotError>, sleeps: seq<nat>)
    requires store.Valid() && start in store.rows
    modifies store, client
    ensures store.Valid() && NoRegress(old(store.rows), store.rows) && store.nextId == old(store.nextId)
    ensures forall x :: x in old(store.rows) && x.id != start.id ==> x in store.rows
    ensures var h := Drive(start, DC.ThreadOutcome(a.thread, parseResetAfter), DC.MessageOutcome(a.message, parseResetAfter));
      && sleeps == h.sleeps
      && (h.result.Err? ==> r == h.result && store.rows == old(store.rows))
      && (h.result.Ok? && a.updateFailure.Some? ==>
            r == Err(DatabaseError(a.updateFailure.value)) && store.rows == old(store.rows))
      && (h.result.Ok? && a.updateFailure.None? ==> r == Ok(()) && store.rows == ReplaceById(old(store.rows), h.run))
    ensures var l := DC.ChannelLookup(old(client.channels), client.channelId, client.channelInfoTtl, a.thread.now, a.thread.channelFetch);
      && client.channels == (if start.state == StateNone then l.cache else old(client.channels))
      && client.requests == old(client.requests)
           + DriveRequests(start, srcRun, categories, l, client.channelId, a, parseResetAfter)
  {
    var h := DriveSteps(srcRun, start, client, categories, a, parseResetAfter);
    sleeps := h.sleeps;
    if h.result.Err? {
      return h.result, sleeps;
    }
    var u := store.Update(h.run, a.updateFailure);
    if u.Err? {
      return Err(DatabaseError(u.error)), sleeps;
    }
    WriteBackNoRegress(old(store.rows), start, h.run);
    forall x | x in old(store.rows) && x.id != start.id
      ensures x in store.rows
    {
      var i :| 0 <= i < |old(store.rows)| && old(store.rows)[i] == x;
      assert store.rows[i] == x;
    }
    r := Ok(());
  }

  /** What handling a run reads and changes: the table's rows and next id,
      the run id map not yet consumed, and the client's channel cache and
      request log. */
  datatype World = World(
    rows: seq<Run>, nextId: int, runsById: map<string, Run>,
    channels: map<DC.ChannelId, DC.Fetched<DC.ChannelInfo>>, requests: seq<DC.Request>)

  function RunIdOf(row: Run): string { row.runId }

  /** The world at the start of a cycle: the whole table, indexed by run id. */
  function CycleStart(
    rows: seq<Run>, nextId: int, channels: map<DC.ChannelId, DC.Fetched<DC.ChannelInfo>>,
    requests: seq<DC.Request>): World
  {
    World(rows, nextId, Collections.IndexBy(rows, RunIdOf), channels, requests)
  }

  /** `handle_run` of `srcRun` took the world from `before` to `after` with
      result `r` and sleeps `sleeps`: the run's record is taken out of the run
      id map, or inserted when there is none; a failed insert ends the handling
      with nothing else changed; otherwise both steps are driven on the record,
      whose row (a new one, for an inserted record) is written back only when
      both succeeded. */
  ghost predicate HandledAs(
    srcRun: Src.SRCRun, categories: CategoryRepository.Repository, channelId: DC.ChannelId, ttl: nat,
    a: RunAnswers, parseResetAfter: string -> Option<nat>, before: World, after: World,
    r: Result<(), BotError>, sleeps: seq<nat>)
  {
    && after.runsById == before.runsById - {srcRun.id}
    && if srcRun.id !in before.runsById && a.insertFailure.Some? then (
         && r == Err(DatabaseError(a.insertFailure.value)) && sleeps == []
         && after.rows == before.rows && after.nextId == before.nextId
         && after.channels == before.channels && after.requests == before.requests
       ) else (
         var isNew := srcRun.id !in before.runsById;
         var start := if isNew then Inserted(FreshRecord(srcRun), before.nextId) else before.runsById[srcRun.id];
         var rows := if isNew then before.rows + [start] else before.rows;
         var h := Drive(start, DC.ThreadOutcome(a.thread, parseResetAfter), DC.MessageOutcome(a.message, parseResetAfter));
         var l := DC.ChannelLookup(before.channels, channelId, ttl, a.thread.now, a.thread.channelFetch);
         && after.nextId == (if isNew then before.nextId + 1 else before.nextId)
         && sleeps == h.sleeps
         && (h.result.Err? ==> r == h.result && after.rows == rows)
         && (h.result.Ok? && a.updateFailure.Some? ==>
               r == Err(DatabaseError(a.updateFailure.value)) && after.rows == rows)
         && (h.result.Ok? && a.updateFailure.None? ==> r == Ok(()) && after.rows == ReplaceById(rows, h.run))
         && after.channels == (if start.state == StateNone then l.cache else before.channels)
         && after.requests == before.requests + DriveRequests(start, srcRun, categories, l, channelId, a, parseResetAfter))
  }

  /** `rs` holds a request for a thread called `name` under `parent`. */
  predicate AsksForThread(rs: seq<DC.Request>, parent: DC.ChannelId, name: string)
  {
    exists i :: 0 <= i < |rs| && rs[i].CreateThreadRequest? && rs[i].parent == parent && rs[i].name == name
  }

  /** A record in `None` whose title builds makes `handle_run` ask for its thread. */
  lemma DriveRequestsAskForThread(
    start: Run, srcRun: Src.SRCRun, categories: CategoryRepository.Repository,
    l: DC.Lookup, channelId: DC.ChannelId, a: RunAnswers, parseResetAfter: string -> Option<nat>)
    requires start.state == StateNone && a.thread.buildError.None?
    ensures AsksForThread(DriveRequests(start, srcRun, categories, l, channelId, a, parseResetAfter),
      channelId, ThreadTitle(srcRun, categories))
  {
    var tr := DC.ThreadRequests(l, channelId, ThreadTitle(srcRun, categories), a.thread);
    var rs := DriveRequests(start, srcRun, categories, l, channelId, a, parseResetAfter);
    assert rs[|tr| - 1] == tr[|tr| - 1];
  }

  /** When the thread is created but posting the message fails, the stored
      row stays in `None`; the next cycle, which indexes the table afresh,
      finds that same row and asks Discord for a second thread for the run.
      (The table is assumed to hold one row for the run's id.) */
  lemma {:induction false} FailedMessageOpensSecondThread(
    srcRun: Src.SRCRun, categories: CategoryRepository.Repository, channelId: DC.ChannelId, ttl: nat,
    a1: RunAnswers, a2: RunAnswers, parseResetAfter: string -> Option<nat>,
    w0: World, w1: World, w2: World, r1: Result<(), BotError>, s1: seq<nat>, r2: Result<(), BotError>, s2: seq<nat>)
    requires Indexed(w0.runsById, w0.rows) && srcRun.id in w0.runsById
    requires w0.runsById[srcRun.id].state == StateNone
    requires forall x :: x in w0.rows && x.runId == srcRun.id ==> x == w0.runsById[srcRun.id]
    requires DC.ThreadOutcome(a1.thread, parseResetAfter).Ok? && DC.MessageOutcome(a1.message, parseResetAfter).Err?
    requires a2.thread.buildError.None?
    requires HandledAs(srcRun, categories, channelId, ttl, a1, parseResetAfter, w0, w1, r1, s1)
    requires HandledAs(srcRun, categories, channelId, ttl, a2, parseResetAfter,
      CycleStart(w1.rows, w1.nextId, w1.channels, w1.requests), w2, r2, s2)
    ensures r1.Err? && w1.rows == w0.rows
    ensures |w0.requests| <= |w1.requests| <= |w2.requests|
    ensures AsksForThread(w1.requests[|w0.requests|..], channelId, ThreadTitle(srcRun, categories))
    ensures AsksForThread(w2.requests[|w1.requests|..], channelId, ThreadTitle(srcRun, categories))
  {
    var start := w0.runsById[srcRun.id];
    var thread := DC.ThreadOutcome(a1.thread, parseResetAfter);
    Utils.ParseNatToString(thread.value.1.id);
    var l1 := DC.ChannelLookup(w0.channels, channelId, ttl, a1.thread.now, a1.thread.channelFetch);
    DriveRequestsAskForThread(start, srcRun, categories, l1, channelId, a1, parseResetAfter);
    assert w1.requests[|w0.requests|..] == DriveRequests(start, srcRun, categories, l1, channelId, a1, parseResetAfter);
    var next := CycleStart(w1.rows, w1.nextId, w1.channels, w1.requests);
    var i :| 0 <= i < |w1.rows| && w1.rows[i] == start;
    assert RunIdOf(w1.rows[i]) in next.runsById;
    assert next.runsById[srcRun.id] == start;
    var l2 := DC.ChannelLookup(w1.channels, channelId, ttl, a2.thread.now, a2.thread.channelFetch);
    DriveRequestsAskForThread(start, srcRun, categories, l2, channelId, a2, parseResetAfter);
    assert w2.requests[|w1.requests|..] == DriveRequests(start, srcRun, categories, l2, channelId, a2, parseResetAfter);
  }

  /** `handle_run`: take or insert the run's record, then drive it. */
  method HandleRun(
    srcRun: Src.SRCRun, runsById: map<string, Run>, store: Store, client: DC.BotDiscordClient,
    categories: CategoryRepository.Repository, a: RunAnswers, parseResetAfter: string -> Option<nat>)
    returns (remaining: map<string, Run>, r: Result<(), BotError>, sleeps: seq<nat>)
    requires store.Valid() && Indexed(runsById, store.rows)
    modifies store, client
    ensures store.Valid() && Indexed(remaining, store.rows)
    ensures NoRegress(old(store.rows), store.rows)
    ensures HandledAs(srcRun, categories, client.channelId, client.channelInfoTtl, a, parseResetAfter,
      World(old(store.rows), old(store.nextId), runsById, old(client.channels), old(client.requests)),
      World(store.rows, store.nextId, remaining, client.channels, client.requests), r, sleeps)
  {
    var start;
    remaining, start := TakeRecord(srcRun, runsById, store, a.insertFailure);
    if start.Err? {
      return remaining, Err(start.error), [];
    }
    ghost var rows := store.rows;
    r, sleeps := DriveRecord(srcRun, start.value, store, client, categories, a, parseResetAfter);
    NoRegressTransitive(old(store.rows), rows, store.rows);
  }

  lemma SameIdOrDistinct(rows: seq<Run>, x: Run, y: Run)
    requires UniqueIds(rows) && x in rows && y in rows && x.runId != y.runId
    ensures x.id != y.id
  {
  }

  /** The sleep `run_once` takes after a handling that failed with a
      rate-limit error: the retry-after Discord gave. */
  function RetrySleep(result: Result<(), BotError>): (ms: seq<nat>)
    ensures ms != [] <==> (result.Err? && result.error.DiscordError?
      && result.error.discordError.HttpError? && result.error.discordError.failure.retryAfterMillis.Some?)
    ensures ms != [] ==> ms == [result.error.discordError.failure.retryAfterMillis.value]
  {
    if result.Err? && result.error.DiscordError? && result.error.discordError.HttpError?
      && result.error.discordError.failure.retryAfterMillis.Some?
    then [result.error.discordError.failure.retryAfterMillis.value]
    else []
  }

  /** The sleeps of a cycle: for each handled run in turn, the sleeps taken
      while handling it, then the retry-after of a rate-limit failure. */
  function SleepLog(handled: seq<(Result<(), BotError>, seq<nat>)>): seq<nat>
  {
    if handled == [] then []
    else
      var last := handled[|handled| - 1];
      SleepLog(handled[..|handled| - 1]) + last.1 + RetrySleep(last.0)
  }

  /** The loop of `run_once`: every run of the queue is handled in turn, from
      one snapshot to the next, whatever the earlier results were; after a
      rate-limited failure the retry-after is slept. */
  method HandleQueue(
    queue: seq<Src.SRCRun>, runsById: map<string, Run>, store: Store, client: DC.BotDiscordClient,
    categories: CategoryRepository.Repository, answers: nat -> RunAnswers, parseResetAfter: string -> Option<nat>)
    returns (sleeps: seq<nat>, ghost worlds: seq<World>, ghost handled: seq<(Result<(), BotError>, seq<nat>)>)
    requires store.Valid() && Indexed(runsById, store.rows)
    modifies store, client
    ensures store.Valid() && NoRegress(old(store.rows), store.rows)
    ensures |handled| == |queue| && |worlds| == |queue| + 1
    ensures worlds[0] == World(old(store.rows), old(store.nextId), runsById, old(client.channels), old(client.requests))
    ensures && worlds[|queue|].rows == store.rows && worlds[|queue|].nextId == store.nextId
            && worlds[|queue|].channels == client.channels && worlds[|queue|].requests == client.requests
    ensures forall i :: 0 <= i < |queue| ==>
      HandledAs(queue[i], categories, client.channelId, client.channelInfoTtl, answers(i), parseResetAfter,
        worlds[i], worlds[i + 1], handled[i].0, handled[i].1)
    ensures sleeps == SleepLog(handled)
  {
    sleeps, handled := [], [];
    worlds := [World(store.rows, store.nextId, runsById, client.channels, client.requests)];
    var remaining := runsById;
    for i := 0 to |queue|
      invariant store.Valid() && Indexed(remaining, store.rows)
      invariant NoRegress(old(store.rows), store.rows)
      invariant |handled| == i && |worlds| == i + 1 && sleeps == SleepLog(handled)
      invariant worlds[0] == World(old(store.rows), old(store.nextId), runsById, old(client.channels), old(client.requests))
      invariant worlds[i] == World(store.rows, store.nextId, remaining, client.channels, client.requests)
      invariant forall j :: 0 <= j < i ==>
        HandledAs(queue[j], categories, client.channelId, client.channelInfoTtl, answers(j), parseResetAfter,
          worlds[j], worlds[j + 1], handled[j].0, handled[j].1)
    {
      ghost var before := store.rows;
      var result, taken;
      remaining, result, taken := HandleRun(queue[i], remaining, store, client, categories, answers(i), parseResetAfter);
      NoRegressTransitive(old(store.rows), before, store.rows);
      sleeps := sleeps + taken + RetrySleep(result);
      assert (handled + [(result, taken)])[..i] == handled;
      handled := handled + [(result, taken)];
      ghost var after := World(store.rows, store.nextId, remaining, client.channels, client.requests);
      assert HandledAs(queue[i], categories, client.channelId, client.channelInfoTtl, answers(i), parseResetAfter,
        worlds[i], after, handled[i].0, handled[i].1);
      worlds := worlds + [after];
    }
  }

  /** `run_once`: load the table, index it by run id, fetch the queue, and
      handle every run in it. `runs` is the queue; `worlds` are the states
      before and after each handling, and `handled` each handling's result and
      sleeps. */
  method RunOnce(
    store: Store, client: DC.BotDiscordClient, categories: CategoryRepository.Repository,
    loadFailure: Option<string>, buildError: Option<Src.BuilderError>,
    stream: seq<Result<Src.SRCRun, Src.SRCError>>, answers: nat -> RunAnswers,
    parseResetAfter: string -> Option<nat>)
    returns (r: Result<(), BotError>, sleeps: seq<nat>, ghost runs: seq<Src.SRCRun>,
      ghost worlds: seq<World>, ghost handled: seq<(Result<(), BotError>, seq<nat>)>)
    requires store.Valid()
    modifies store, client
    ensures store.Valid()
    ensures NoRegress(old(store.rows), store.rows)
    ensures loadFailure.Some? ==>
      && r == Err(DatabaseError(loadFailure.value)) && sleeps == []
      && store.rows == old(store.rows) && store.nextId == old(store.nextId)
      && client.channels == old(client.channels) && client.requests == old(client.requests)
    ensures loadFailure.None? && buildError.Some? ==>
      && r == Err(SRCError(Src.FromBuilderError(buildError.value))) && sleeps == []
      && store.rows == old(store.rows) && store.nextId == old(store.nextId)
      && client.channels == old(client.channels) && client.requests == old(client.requests)
    ensures loadFailure.None? && buildError.None? ==>
      && r == Ok(()) && runs == Src.Successes(stream)
      && |handled| == |runs| && |worlds| == |runs| + 1
      && worlds[0] == CycleStart(old(store.rows), old(store.nextId), old(client.channels), old(client.requests))
      && worlds[|runs|].rows == store.rows && worlds[|runs|].nextId == store.nextId
      && worlds[|runs|].channels == client.channels && worlds[|runs|].requests == client.requests
      && (forall i :: 0 <= i < |runs| ==>
            HandledAs(runs[i], categories, client.channelId, client.channelInfoTtl, answers(i), parseResetAfter,
              worlds[i], worlds[i + 1], handled[i].0, handled[i].1))
      && sleeps == SleepLog(handled)
  {
    sleeps, runs, worlds, handled := [], [], [], [];
    var known := store.Load(loadFailure);
    if known.Err? {
      return Err(DatabaseError(known.error)), sleeps, runs, worlds, handled;
    }
    var runsById := Collections.IndexBy(known.value, RunIdOf);
    var fetched := Src.GetRuns(buildError, stream);
    if fetched.Err? {
      return Err(SRCError(fetched.error)), sleeps, runs, worlds, handled;
    }
    runs := fetched.value;
    sleeps, worlds, handled := HandleQueue(fetched.value, runsById, store, client, categories, answers, parseResetAfter);
    r := Ok(());
  }
}
