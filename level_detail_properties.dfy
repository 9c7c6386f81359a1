/** What the level-detail endpoint promises, stated about the pure model of the handler. */
module LevelDetailProperties {
  import opened Wrappers
  import Assoc
  import JsNumbers
  import opened JsValues
  import opened Http
  import opened LevelDetail

  // ---------------------------------------------------------------- before any fetch

  /** A preflight request is answered 200 with an empty body, whatever its id, and fetches nothing. */
  lemma PreflightIsNoOp(req: Request, level: Fetched, profile: Fetched, leaderboard: Fetched, comments: Fetched,
                        decode: string -> Result<string, string>)
    requires req.httpMethod == "OPTIONS"
    ensures Handle(req, level, profile, leaderboard, comments, decode) == Exchange(HttpResponse(200, CorsHeaders, None), [])
  {
  }

  /** Without an id, or with an empty one, the answer is 400 with a fixed message and nothing is fetched. */
  lemma MissingIdRejected(req: Request, level: Fetched, profile: Fetched, leaderboard: Fetched, comments: Fetched,
                          decode: string -> Result<string, string>)
    requires req.httpMethod != "OPTIONS"
    requires req.id == Absent || req.id == Single("")
    ensures Handle(req, level, profile, leaderboard, comments, decode) ==
            Exchange(HttpResponse(400, CorsHeaders, Some(JObj([("error", JStr("Level ID is required."))]))), [])
  {
  }

  /** The handler fetches something exactly when the request is not a preflight and carries a non-empty id. */
  lemma FetchesOnlyWithId(req: Request, level: Fetched, profile: Fetched, leaderboard: Fetched, comments: Fetched,
                          decode: string -> Result<string, string>)
    ensures var fetched := Handle(req, level, profile, leaderboard, comments, decode).fetched;
            (fetched == []) <==> (req.httpMethod == "OPTIONS" || req.id == Absent || req.id == Single(""))
    ensures var fetched := Handle(req, level, profile, leaderboard, comments, decode).fetched;
            fetched != [] ==> fetched[0] == "https://gdbrowser.com/api/level/" + IdText(req.id)
  {
  }

  // ---------------------------------------------------------------- the level fetch

  /**
   * A level response that is not ok is answered with its own status and a fixed message; the
   * upstream body is not passed on and no side call is made.
   */
  lemma UpstreamStatusForwarded(req: Request, level: Fetched, profile: Fetched, leaderboard: Fetched, comments: Fetched,
                                decode: string -> Result<string, string>)
    requires req.httpMethod != "OPTIONS" && IdPresent(req.id)
    requires level.Answered? && !IsOk(level.status)
    ensures Handle(req, level, profile, leaderboard, comments, decode) ==
            Exchange(HttpResponse(level.status, CorsHeaders, Some(JObj([("error", JStr("Level not found or GDBrowser error"))]))),
                     [LevelUrl(IdText(req.id))])
  {
  }

  /**
   * The exceptions of reading the level record all end in the catch block: a rejected fetch, a
   * body that is not JSON, and a `null` body (reading its `author` throws).
   */
  lemma LevelReadFailures(req: Request, level: Fetched, profile: Fetched, leaderboard: Fetched, comments: Fetched,
                          decode: string -> Result<string, string>)
    requires req.httpMethod != "OPTIONS" && IdPresent(req.id)
    ensures level.Rejected? ==>
              Handle(req, level, profile, leaderboard, comments, decode).response ==
              HttpResponse(500, CorsHeaders,
                           Some(JObj([("error", JStr("Internal Server Error")), ("details", JStr(level.message))])))
    ensures level.Answered? && IsOk(level.status) && level.body.Failure? ==>
              Handle(req, level, profile, leaderboard, comments, decode).response ==
              HttpResponse(500, CorsHeaders,
                           Some(JObj([("error", JStr("Internal Server Error")), ("details", JStr(level.body.error))])))
    ensures level.Answered? && IsOk(level.status) && level.body == Success(JNull) ==>
              Handle(req, level, profile, leaderboard, comments, decode).response ==
              HttpResponse(500, CorsHeaders,
                           Some(JObj([("error", JStr("Internal Server Error")),
                                      ("details", JStr("Cannot read properties of null (reading 'author')"))])))
    ensures level.Rejected? || (level.Answered? && IsOk(level.status) && (level.body.Failure? || level.body == Success(JNull)))
            ==> Handle(req, level, profile, leaderboard, comments, decode).fetched == [LevelUrl(IdText(req.id))]
  {
  }

  // ---------------------------------------------------------------- the song URL

  /** With a custom song and a truthy `songLink`, the URL is the decoding of the link's text, or its failure. */
  lemma SongUrlFromLink(data: Json, decode: string -> Result<string, string>, text: string)
    requires AtLeastOne(Member(data, "customSong")) == Success(true)
    requires Truthy(Member(data, "songLink"))
    requires ToStr(Member(data, "songLink").value) == Success(text)
    ensures decode(text).Success? ==> SongUrl(data, decode) == Success(JStr(decode(text).value))
    ensures decode(text).Failure? ==> SongUrl(data, decode) == Failure(decode(text).error)
  {
  }

  /** With a custom song and no usable `songLink`, the URL is the Newgrounds page of `songID`. */
  lemma SongUrlFallback(data: Json, decode: string -> Result<string, string>, songId: string)
    requires AtLeastOne(Member(data, "customSong")) == Success(true)
    requires !Truthy(Member(data, "songLink"))
    requires TemplateText(Member(data, "songID")) == Success(songId)
    ensures SongUrl(data, decode) == Success(JStr("https://www.newgrounds.com/audio/listen/" + songId))
  {
  }

  /** The fallback for a record that names song 12345 and has no link. */
  lemma SongUrlFallbackExample(decode: string -> Result<string, string>)
    ensures SongUrl(JObj([("customSong", JNum(12345)), ("songID", JNum(12345))]), decode) ==
            Success(JStr("https://www.newgrounds.com/audio/listen/12345"))
  {
    var data := JObj([("customSong", JNum(12345)), ("songID", JNum(12345))]);
    assert Member(data, "songLink") == None;
    assert Member(data, "songID") == Some(JNum(12345));
    assert JsNumbers.NatToDecimal(1) == "1";
    assert JsNumbers.NatToDecimal(12) == "12";
    assert JsNumbers.NatToDecimal(123) == "123";
    assert JsNumbers.NatToDecimal(1234) == "1234";
    assert JsNumbers.NatToDecimal(12345) == "12345";
    assert Member(data, "customSong") == Some(JNum(12345));
    assert TemplateText(Member(data, "songID")) == Success("12345");
    assert AtLeastOne(Member(data, "customSong")) == Success(true);
    SongUrlFallback(data, decode, "12345");
    assert "https://www.newgrounds.com/audio/listen/" + "12345" == "https://www.newgrounds.com/audio/listen/12345";
  }

  /** A decoding failure turns the whole request into a 500 carrying the failure's message. */
  lemma DecodeFailureIs500(req: Request, status: FetchStatus, data: Json,
                           profile: Fetched, leaderboard: Fetched, comments: Fetched,
                           decode: string -> Result<string, string>, author: string, text: string, message: string)
    requires req.httpMethod != "OPTIONS" && IdPresent(req.id)
    requires IsOk(status) && data != JNull
    requires TemplateText(Member(data, "author")) == Success(author)
    requires AtLeastOne(Member(data, "customSong")) == Success(true) && Truthy(Member(data, "songLink"))
    requires ToStr(Member(data, "songLink").value) == Success(text)
    requires decode(text) == Failure(message)
    ensures Handle(req, Answered(status, Success(data)), profile, leaderboard, comments, decode) ==
            Exchange(HttpResponse(500, CorsHeaders,
                                  Some(JObj([("error", JStr("Internal Server Error")), ("details", JStr(message))]))),
                     AllFetches(IdText(req.id), author))
  {
  }

  // ---------------------------------------------------------------- conversions that throw

  /**
   * A field that cannot be made primitive throws where the handler converts it: the author's name
   * before any side call, `customSong`, `songLink` or `songID` after all four requests. Either
   * way the answer is a 500 with the TypeError's message.
   */
  lemma ConversionFailures(req: Request, status: FetchStatus, data: Json,
                           profile: Fetched, leaderboard: Fetched, comments: Fetched,
                           decode: string -> Result<string, string>)
    requires req.httpMethod != "OPTIONS" && IdPresent(req.id)
    requires IsOk(status) && data != JNull
    ensures var author := Member(data, "author");
            author.Some? && ThrowsOnConversion(author.value) ==>
              Handle(req, Answered(status, Success(data)), profile, leaderboard, comments, decode) ==
              Exchange(InternalError(ConvertMessage), ["https://gdbrowser.com/api/level/" + IdText(req.id)])
    ensures var custom := Member(data, "customSong");
            var link := Member(data, "songLink");
            var songId := Member(data, "songID");
            TemplateText(Member(data, "author")).Success? &&
            (|| (custom.Some? && ThrowsOnConversion(custom.value))
             || (AtLeastOne(custom) == Success(true) && link.Some? && ThrowsOnConversion(link.value))
             || (AtLeastOne(custom) == Success(true) && !Truthy(link) && songId.Some? && ThrowsOnConversion(songId.value)))
            ==>
              Handle(req, Answered(status, Success(data)), profile, leaderboard, comments, decode) ==
              Exchange(InternalError(ConvertMessage), AllFetches(IdText(req.id), TemplateText(Member(data, "author")).value))
  {
    var link := Member(data, "songLink");
    if link.Some? && ThrowsOnConversion(link.value) {
      assert Truthy(link);
    }
  }

  /** A level record whose author is an object with its own `toString` field ends in a 500 after one request. */
  lemma AuthorObjectExample(profile: Fetched, leaderboard: Fetched, comments: Fetched,
                            decode: string -> Result<string, string>)
    ensures Handle(Request("GET", Single("5")),
                   Answered(200, Success(JObj([("author", JObj([("toString", JNum(1))]))]))),
                   profile, leaderboard, comments, decode) ==
            Exchange(HttpResponse(500, CorsHeaders,
                                  Some(JObj([("error", JStr("Internal Server Error")),
                                             ("details", JStr("Cannot convert object to primitive value"))]))),
                     ["https://gdbrowser.com/api/level/5"])
  {
    var author := JObj([("toString", JNum(1))]);
    var data := JObj([("author", author)]);
    assert Assoc.Keys(author.members) == ["toString"];
    assert Member(data, "author") == Some(author);
    assert ThrowsOnConversion(author);
    assert TemplateText(Member(data, "author")) == Failure(ConvertMessage);
    assert IdPresent(Single("5")) && IdText(Single("5")) == "5";
    assert LevelUrl("5") == "https://gdbrowser.com/api/level/5";
  }

  /** A link nested in an array as an object with its own `toString` throws when it is decoded. */
  lemma NestedLinkExample(decode: string -> Result<string, string>)
    ensures SongUrl(JObj([("customSong", JNum(1)), ("songLink", JArr([JObj([("toString", JNull)])]))]), decode) ==
            Failure("Cannot convert object to primitive value")
  {
    var inner := JObj([("toString", JNull)]);
    var data := JObj([("customSong", JNum(1)), ("songLink", JArr([inner]))]);
    assert Assoc.Keys(inner.members) == ["toString"];
    assert ThrowsOnConversion(JArr([inner])) by {
      assert JArr([inner]).items[0] == inner;
    }
    assert Member(data, "customSong") == Some(JNum(1));
    assert data.members[1..] == [("songLink", JArr([inner]))];
    assert Assoc.Lookup(data.members[1..], "songLink") == Some(JArr([inner]));
    assert Assoc.Lookup(data.members, "songLink") == Some(JArr([inner]));
    assert Member(data, "songLink") == Some(JArr([inner]));
  }

  // ---------------------------------------------------------------- the success response

  /**
   * When the level is read, the author printed and the song URL derived, the answer is 200 with
   * the full response whatever the side calls returned, after fetching the level and the three
   * side resources.
   */
  lemma SuccessResponse(req: Request, status: FetchStatus, data: Json,
                        profile: Fetched, leaderboard: Fetched, comments: Fetched,
                        decode: string -> Result<string, string>, author: string, song: Json)
    requires req.httpMethod != "OPTIONS" && IdPresent(req.id)
    requires IsOk(status) && data != JNull
    requires TemplateText(Member(data, "author")) == Success(author)
    requires SongUrl(data, decode) == Success(song)
    ensures var id := IdText(req.id);
            Handle(req, Answered(status, Success(data)), profile, leaderboard, comments, decode) ==
            Exchange(HttpResponse(200, CorsHeaders, Some(FullResponse(id, data, song, profile, leaderboard, comments))),
                     ["https://gdbrowser.com/api/level/" + id,
                      "https://gdbrowser.com/api/profile/" + author,
                      "https://gdbrowser.com/api/leaderboardLevel/" + id,
                      "https://gdbrowser.com/api/comments/" + id + "?count=20"])
  {
  }

  // ---------------------------------------------------------------- side calls

  /** The side calls never decide the status, nor which URLs are fetched. */
  lemma SideCallsNeverChangeStatus(req: Request, level: Fetched, decode: string -> Result<string, string>,
                                   p1: Fetched, l1: Fetched, c1: Fetched, p2: Fetched, l2: Fetched, c2: Fetched)
    ensures Handle(req, level, p1, l1, c1, decode).response.status == Handle(req, level, p2, l2, c2, decode).response.status
    ensures Handle(req, level, p1, l1, c1, decode).fetched == Handle(req, level, p2, l2, c2, decode).fetched
  {
  }

  // ---------------------------------------------------------------- every outcome

  /**
   * Every request ends in one of five ways: preflight (200, no body), missing id (400), upstream
   * error (the level response's status), internal error (500) or success (200 with an object
   * that has `extras`).
   */
  lemma OneOfFiveOutcomes(req: Request, level: Fetched, profile: Fetched, leaderboard: Fetched, comments: Fetched,
                          decode: string -> Result<string, string>)
    ensures var r := Handle(req, level, profile, leaderboard, comments, decode).response;
            || (r.status == 200 && r.body == None)
            || (r.status == 400 && r.body == Some(ErrorBody(MissingIdMessage)))
            || (level.Answered? && !IsOk(level.status) && r.status == level.status
                && r.body == Some(ErrorBody(UpstreamMessage)))
            || (r.status == 500 && r.body.Some? && r.body.value.JObj?
                && Assoc.Lookup(r.body.value.members, "error") == Some(JStr(InternalMessage)))
            || (r.status == 200 && r.body.Some? && r.body.value.JObj?
                && Assoc.Lookup(r.body.value.members, "extras").Some?)
  {
  }
}
