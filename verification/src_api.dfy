/** The speedrun.com side (src/src/mod.rs): the shapes the bot reads, the
    first-player lookup, the error type and the collection of queued runs. */
module Src {
  import opened Wrappers

  /** A variable value; `labelText` is the source's `label` (a reserved word here). */
  datatype Value = Value(labelText: string)

  /** A category variable; `values` maps value ids to their labels. */
  datatype Variable = Variable(
    id: string,
    category: Option<string>,
    isSubcategory: bool,
    values: map<string, Value>)

  datatype Category = Category(id: string, name: string, variables: seq<Variable>)

  datatype Names = Names(international: string, japanese: Option<string>)

  datatype PlayerEmbed = User(names: Names) | Guest(name: string)

  /** A queued run. `primarySecs` is the primary time in whole seconds;
      `values` maps variable ids to the chosen value ids. */
  datatype SRCRun = SRCRun(
    id: string,
    weblink: string,
    category: string,
    players: seq<PlayerEmbed>,
    submitted: Option<string>,
    primarySecs: nat,
    values: map<string, string>)

  /** `PlayerEmbed::name`: a registered user is shown by the international form
      of their name, a guest by the name given. */
  function Name(p: PlayerEmbed): (r: string)
    ensures p.User? ==> r == p.names.international
    ensures p.Guest? ==> r == p.name
  {
    match p
    case User(names) => names.international
    case Guest(name) => name
  }

  /** `SRCRun::player`: the first embedded player's name, if there is a player. */
  function Player(run: SRCRun): (r: Option<string>)
    ensures r.None? <==> run.players == []
    ensures r.Some? ==> r.value == Name(run.players[0])
  {
    if run.players == [] then None else Some(Name(run.players[0]))
  }

  /** The error payload of a failed API call, kept as its text. */
  datatype ApiFailure = ApiFailure(detail: string)

  /** The query builders' errors, each carrying its message. */
  datatype BuilderError =
    | RunBuilderError(message: string)
    | RunsBuilderError(message: string)
    | GameCategoriesBuilderError(message: string)

  datatype SRCError = ApiError(failure: ApiFailure) | QueryBuildError(message: string)

  /** `From<ApiError<RestError>>` and `From<...BuilderError>` for `SRCError`. */
  function FromApiError(e: ApiFailure): (r: SRCError)
    ensures r.ApiError? && r.failure == e
  {
    ApiError(e)
  }

  function FromBuilderError(e: BuilderError): (r: SRCError)
    ensures r.QueryBuildError? && r.message == e.message
  {
    QueryBuildError(e.message)
  }

  /** The conversions keep API failures and builder failures apart, and keep
      each one's detail. */
  lemma ConversionsKeepDetail(a: ApiFailure, a': ApiFailure, b: BuilderError, b': BuilderError)
    ensures FromApiError(a) != FromBuilderError(b)
    ensures FromApiError(a) == FromApiError(a') <==> a == a'
    ensures FromBuilderError(b) == FromBuilderError(b') <==> b.message == b'.message
  {
  }

  /** The runs a stream of item results yields, failed items skipped, in order. */
  function Successes(items: seq<Result<SRCRun, SRCError>>): seq<SRCRun>
  {
    if items == [] then []
    else
      var init := Successes(items[..|items| - 1]);
      match items[|items| - 1]
      case Ok(r) => init + [r]
      case Err(_) => init
  }

  /** The accumulation loop of `get_runs`: the query is built first (which may
      fail), then every item of the paged stream is pulled; failed items are
      skipped, never failing the whole call. */
  method GetRuns(buildError: Option<BuilderError>, stream: seq<Result<SRCRun, SRCError>>)
    returns (r: Result<seq<SRCRun>, SRCError>)
    ensures buildError.Some? ==> r == Err(FromBuilderError(buildError.value))
    ensures buildError.None? ==> r == Ok(Successes(stream))
  {
    if buildError.Some? {
      return Err(FromBuilderError(buildError.value));
    }
    var runs: seq<SRCRun> := [];
    var i := 0;
    while i < |stream|
      invariant 0 <= i <= |stream|
      invariant runs == Successes(stream[..i])
    {
      assert stream[..i + 1][..i] == stream[..i];
      match stream[i] {
        case Ok(run) => runs := runs + [run];
        case Err(_) =>
      }
      i := i + 1;
    }
    assert stream[..|stream|] == stream;
    return Ok(runs);
  }

  /** Order is preserved: the successes of a concatenation are the successes of
      each part, one after the other. */
  lemma {:induction false} SuccessesAppend(a: seq<Result<SRCRun, SRCError>>, b: seq<Result<SRCRun, SRCError>>)
    ensures Successes(a + b) == Successes(a) + Successes(b)
  {
    if b != [] {
      var b0 := b[..|b| - 1];
      assert (a + b)[..|a + b| - 1] == a + b0;
      SuccessesAppend(a, b0);
    } else {
      assert a + b == a;
    }
  }

  /** Exactly the successful items are kept. */
  lemma {:induction false} SuccessesMembers(items: seq<Result<SRCRun, SRCError>>, x: SRCRun)
    ensures x in Successes(items) <==> Ok(x) in items
  {
    if items != [] {
      var init := items[..|items| - 1];
      SuccessesMembers(init, x);
      assert items == init + [items[|items| - 1]];
    }
  }

  /** No item is lost or duplicated: one run per successful item. */
  lemma {:induction false} SuccessesCount(items: seq<Result<SRCRun, SRCError>>)
    ensures |Successes(items)| == |set i | 0 <= i < |items| && items[i].Ok?|
  {
    if items != [] {
      var n := |items| - 1;
      var init := items[..n];
      SuccessesCount(init);
      var before := set i | 0 <= i < n && init[i].Ok?;
      var after := set i | 0 <= i < |items| && items[i].Ok?;
      if items[n].Ok? {
        assert after == before + {n};
      } else {
        assert after == before;
      }
    }
  }
}
