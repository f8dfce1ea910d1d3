/**
 * The match page of pages/MatchDetail.tsx: the state its effect and click
 * handlers update, the outcome rule of `loadData`, and the two values the
 * page derives from its state (the team header switch and the server label).
 */
module MatchDetail {
  import opened Wrappers
  import opened Strings
  import opened JsonValue
  import opened Api

  const IncompleteMessage: string := "Match data is incomplete or missing."
  const GoneMessage: string := "This match is no longer available or the stream has ended."
  const FallbackMessage: string := "Could not load match details."

  /** The message the catch block of `loadData` stores for an Error with message `m`. */
  function DisplayedError(m: string): (r: string)
    ensures r != ""
    ensures r == GoneMessage || r == m || r == FallbackMessage
  {
    if m != "" && (Contains(m, "404") || Contains(m, "Match not found")) then GoneMessage
    else if m != "" then m
    else FallbackMessage
  }

  /** A not-found error, told by `404` or `Match not found` in its message, gets the friendly text. */
  lemma NotFoundErrorsShowGone(m: string)
    requires Contains(m, "404") || Contains(m, "Match not found")
    ensures DisplayedError(m) == GoneMessage
  {
  }

  /** Any other error keeps its own message, or gets the fallback text when that message is empty. */
  lemma OtherErrorsKeepMessage(m: string)
    requires !Contains(m, "404") && !Contains(m, "Match not found")
    ensures DisplayedError(m) == if m == "" then FallbackMessage else m
  {
  }

  /** A message with neither a `4` nor an `f` in it cannot name 404 or `Match not found`. */
  lemma MessageWithout4OrFShownAsIs(m: string)
    requires m != "" && '4' !in m && 'f' !in m
    ensures DisplayedError(m) == m
  {
    MissingCharExcludes(m, "404", 0);
    MissingCharExcludes(m, "Match not found", 10);
  }

  /** The incomplete-data message is shown as it is. */
  lemma IncompleteMessageShownAsIs()
    ensures DisplayedError(IncompleteMessage) == IncompleteMessage
  {
    MessageWithout4OrFShownAsIs(IncompleteMessage);
  }

  /**
   * What one load attempt leaves for the page: the match to show, or the
   * error text to show, given what `api.getMatchDetail` returned or threw.
   */
  function LoadOutcome(fetched: Result<Json>): (r: Result<Json>)
    ensures r.Ok? <==> fetched.Ok? && HasId(fetched.value)
    ensures r.Ok? ==> r.value == fetched.value
    ensures r.Err? ==> r.message != ""
    ensures fetched.Err? ==> r == Err(DisplayedError(fetched.message))
  {
    match fetched
    case Err(m) => Err(DisplayedError(m))
    case Ok(data) =>
      if !Truthy(data) || !HasId(data) then Err(DisplayedError(IncompleteMessage))
      else Ok(data)
  }

  /** Data without a truthy id is reported as incomplete. */
  lemma NoIdIsIncomplete(data: Json)
    requires !HasId(data)
    ensures LoadOutcome(Ok(data)) == Err(IncompleteMessage)
  {
    IncompleteMessageShownAsIs();
  }

  /** A 404 from the detail endpoint ends on the "no longer available" text. */
  lemma NotFoundReplyShowsGone(statusText: string, body: Body)
    ensures LoadOutcome(FetchMatchDetail(Response(404, statusText, body))) == Err(GoneMessage)
  {
    NotFoundMessageMentions404(statusText, body);
    NotFoundErrorsShowGone(FetchJson(Response(404, statusText, body)).message);
  }

  /** A non-ok reply whose reason phrase is `Match not found` also ends on the "no longer available" text. */
  lemma NotFoundStatusTextShowsGone(status: nat, body: Body)
    requires !IsOk(status)
    ensures LoadOutcome(FetchMatchDetail(Response(status, "Match not found", body))) == Err(GoneMessage)
  {
    var m := HttpErrorMessage(status, "Match not found");
    var tail := " " + "Match not found";
    assert m[|m| - |tail|..] == tail;
    assert m[|m| - |tail| + 1..|m|] == "Match not found";
    ContainsAt(m, "Match not found", |m| - |tail| + 1);
    NotFoundErrorsShowGone(m);
  }

  /** `data.sources && data.sources.length > 0 ? data.sources[0]` for arrays and strings. */
  function FirstSource(data: Json): (r: Option<Json>)
    ensures Field(data, "sources").JArr? ==>
              r == if Field(data, "sources").items == [] then None else Some(Field(data, "sources").items[0])
    ensures Field(data, "sources").JStr? && Field(data, "sources").s != "" ==>
              r == Some(JStr([Field(data, "sources").s[0]]))
    ensures !Truthy(Field(data, "sources")) ==> r.None?
  {
    var sources := Field(data, "sources");
    if !Truthy(sources) then None
    else
      match sources
      case JArr(items) => if |items| > 0 then Some(items[0]) else None
      case JStr(s) => if |s| > 0 then Some(JStr([s[0]])) else None
      case _ => None
  }

  /** What the page renders at the top level: the spinner, the error card or the player. */
  datatype Screen = Spinner | ErrorCard(message: string) | Player

  /** The state of one mounted match page. */
  class MatchDetailPage {
    var detail: Json
    var loading: bool
    var error: Option<string>
    var activeStream: Json
    var iframeKey: nat
    var isWideMode: bool

    /** Only data with an id is ever shown, every stored error has text, and a finished load leaves one of the two. */
    predicate Valid()
      reads this
      ensures Valid() && !loading ==> error.Some? || Truthy(detail)
    {
      && (detail == JNull || HasId(detail))
      && (error.Some? ==> error.value != "")
      && (!loading ==> error.Some? || HasId(detail))
    }

    constructor ()
      ensures Valid()
      ensures detail == JNull && loading && error == None
      ensures activeStream == JNull && iframeKey == 0 && !isWideMode
    {
      detail := JNull;
      loading := true;
      error := None;
      activeStream := JNull;
      iframeKey := 0;
      isWideMode := false;
    }

    /** The page's top-level view: the spinner while loading, the error card when there is an error or no match. */
    function CurrentScreen(): (r: Screen)
      reads this
      requires Valid()
      ensures r == Spinner <==> loading
      ensures r == Player <==> !loading && error.None?
      ensures r.ErrorCard? ==> r.message != ""
      ensures r == Player ==> HasId(detail)
    {
      if loading then Spinner
      else if error.Some? || !Truthy(detail) then ErrorCard(if error.Some? then error.value else "")
      else Player
    }

    /** The synchronous start of `loadData` for a present match id. */
    method BeginLoad()
      requires Valid()
      modifies this`loading, this`error
      ensures Valid()
      ensures loading && error == None
    {
      loading := true;
      error := None;
    }

    /** The rest of `loadData`, once `api.getMatchDetail` has returned or thrown. */
    method FinishLoad(fetched: Result<Json>)
      requires Valid()
      modifies this`detail, this`activeStream, this`error, this`loading
      ensures Valid() && !loading
      ensures LoadOutcome(fetched).Ok? ==>
                && detail == LoadOutcome(fetched).value
                && error == old(error)
                && activeStream == (if FirstSource(detail).Some? then FirstSource(detail).value else old(activeStream))
      ensures LoadOutcome(fetched).Err? ==>
                && error == Some(LoadOutcome(fetched).message)
                && detail == old(detail)
                && activeStream == old(activeStream)
    {
      var outcome := LoadOutcome(fetched);
      match outcome {
        case Ok(data) =>
          detail := data;
          var first := FirstSource(data);
          if first.Some? {
            activeStream := first.value;
          }
        case Err(m) =>
          error := Some(m);
      }
      loading := false;
    }

    /** `loadData` for the route's match id and the reply to its detail request. */
    method LoadData(matchId: Option<string>, reply: Reply)
      requires Valid()
      modifies this`detail, this`activeStream, this`error, this`loading
      ensures Valid()
      ensures (matchId.None? || matchId == Some("")) ==>
                detail == old(detail) && activeStream == old(activeStream) && error == old(error) && loading == old(loading)
      ensures matchId.Some? && matchId.value != "" ==>
                var outcome := LoadOutcome(FetchMatchDetail(reply));
                && !loading
                && (outcome.Ok? ==> detail == outcome.value && error.None?
                                    && activeStream == (if FirstSource(detail).Some? then FirstSource(detail).value else old(activeStream)))
                && (outcome.Err? ==> error == Some(outcome.message) && detail == old(detail) && activeStream == old(activeStream))
    {
      if matchId.None? || matchId.value == "" {
        return;
      }
      BeginLoad();
      FinishLoad(FetchMatchDetail(reply));
    }

    /** `refreshStream`: remount the player by bumping its key. */
    method RefreshStream()
      requires Valid()
      modifies this`iframeKey
      ensures Valid()
      ensures iframeKey == old(iframeKey) + 1
    {
      iframeKey := iframeKey + 1;
    }

    /** Clicking a server button: play that stream in a fresh player. */
    method SelectStream(stream: Json)
      requires Valid()
      modifies this`activeStream, this`iframeKey
      ensures Valid()
      ensures activeStream == stream && iframeKey == old(iframeKey) + 1
    {
      activeStream := stream;
      iframeKey := iframeKey + 1;
    }

    /** The cinema-mode button flips the wide layout. */
    method ToggleWideMode()
      requires Valid()
      modifies this`isWideMode
      ensures Valid()
      ensures isWideMode == !old(isWideMode)
    {
      isWideMode := !isWideMode;
    }

    /** `teams && teams.home && teams.away`: the team header is shown only when both sides are present. */
    function HasTeamData(): (r: bool)
      reads this
      ensures r <==> Truthy(Field(Field(detail, "teams"), "home")) && Truthy(Field(Field(detail, "teams"), "away"))
    {
      var teams := Field(detail, "teams");
      assert Truthy(Field(teams, "home")) ==> teams.JObj?;
      Truthy(teams) && Truthy(Field(teams, "home")) && Truthy(Field(teams, "away"))
    }

    /** `activeStream?.streamNo || 1`: the server number in the controls bar. */
    function ServerLabel(): (r: Json)
      reads this
      ensures Truthy(r)
      ensures r == Field(activeStream, "streamNo") || r == JNum(1.0)
      ensures Truthy(Field(activeStream, "streamNo")) ==> r == Field(activeStream, "streamNo")
      ensures !Truthy(Field(activeStream, "streamNo")) ==> r == JNum(1.0)
    {
      var streamNo := Field(activeStream, "streamNo");
      if Truthy(streamNo) then streamNo else JNum(1.0)
    }
  }
}
