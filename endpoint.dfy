/**
 * The handler as the server runs it: it writes the response object step by step and stops at
 * the first `return`. A thrown exception is the early exit through `Catch`, which writes what
 * the catch block writes. Each outcome is proved to be the one the pure model chooses.
 */
module Endpoint {
  import opened Wrappers
  import Assoc
  import opened JsValues
  import opened Http
  import opened LevelDetail

  /** The catch block: status 500 with the error's message as `details`. */
  method Catch(res: ServerResponse, message: string)
    requires !res.finished
    modifies res
    ensures res.finished && res.Sent() == HttpResponse(500, old(res.headers), InternalError(message).body)
  {
    res.Status(500);
    res.SendJson(JObj([("error", JStr(InternalMessage)), ("details", JStr(message))]));
  }

  /** The four `setHeader` calls that open the handler, on a response with no headers yet. */
  method SetCorsHeaders(res: ServerResponse)
    requires res.headers == [] && !res.finished
    modifies res
    ensures res.headers == CorsHeaders
    ensures res.statusCode == old(res.statusCode) && !res.finished && res.body == old(res.body)
  {
    res.SetHeader("Access-Control-Allow-Credentials", "true");
    assert Assoc.Keys(res.headers) == ["Access-Control-Allow-Credentials"];
    res.SetHeader("Access-Control-Allow-Origin", "*");
    assert Assoc.Keys(res.headers) == ["Access-Control-Allow-Credentials", "Access-Control-Allow-Origin"];
    res.SetHeader("Access-Control-Allow-Methods", "GET,OPTIONS");
    assert Assoc.Keys(res.headers) ==
           ["Access-Control-Allow-Credentials", "Access-Control-Allow-Origin", "Access-Control-Allow-Methods"];
    res.SetHeader("Access-Control-Allow-Headers",
                  "X-CSRF-Token, X-Requested-With, Accept, Accept-Version, Content-Length, Content-MD5, Content-Type, Date, X-Api-Version");
  }

  /**
   * The song link, held in a variable that starts null and is reassigned by the branch taken;
   * a conversion or decoding failure is returned as the exception it raises.
   */
  method DeriveSongUrl(levelData: Json, decode: string -> Result<string, string>) returns (song: Result<Json, string>)
    ensures song == SongUrl(levelData, decode)
    ensures song == Success(JNull) <==> AtLeastOne(Member(levelData, "customSong")) == Success(false)
  {
    var songUrl := JNull;
    var customSong := AtLeastOne(Member(levelData, "customSong"));
    if customSong.Failure? {
      return Failure(customSong.error);
    }
    if customSong.value {
      var songLink := Member(levelData, "songLink");
      if Truthy(songLink) {
        var text := ToStr(songLink.value);
        if text.Failure? {
          return Failure(text.error);
        }
        var decoded := decode(text.value);
        if decoded.Failure? {
          return Failure(decoded.error);
        }
        songUrl := JStr(decoded.value);
      } else {
        var songId := TemplateText(Member(levelData, "songID"));
        if songId.Failure? {
          return Failure(songId.error);
        }
        songUrl := JStr(NewgroundsListen + songId.value);
      }
    }
    return Success(songUrl);
  }

  /**
   * Serves one request on a fresh response. The awaited results of the level fetch, the three
   * side fetches and decodeURIComponent are given; `fetched` lists the requests made, in order.
   * The response object literal is `FullResponse`, built from the settled side results.
   */
  method HandleRequest(req: Request, res: ServerResponse,
                       level: Fetched, profile: Fetched, leaderboard: Fetched, comments: Fetched,
                       decode: string -> Result<string, string>)
    returns (fetched: seq<string>)
    requires res.headers == [] && !res.finished
    modifies res
    ensures res.finished
    ensures res.Sent() == Handle(req, level, profile, leaderboard, comments, decode).response
    ensures fetched == Handle(req, level, profile, leaderboard, comments, decode).fetched
  {
    SetCorsHeaders(res);

    fetched := [];
    if req.httpMethod == "OPTIONS" {
      res.Status(200);
      res.End();
      return;
    }

    if !IdPresent(req.id) {
      res.Status(400);
      res.SendJson(ErrorBody(MissingIdMessage));
      return;
    }
    var id := IdText(req.id);

    fetched := fetched + [LevelUrl(id)];
    if level.Rejected? {
      Catch(res, level.message);
      return;
    }
    if !IsOk(level.status) {
      res.Status(level.status);
      res.SendJson(ErrorBody(UpstreamMessage));
      return;
    }
    if level.body.Failure? {
      Catch(res, level.body.error);
      return;
    }
    var levelData := level.body.value;
    if levelData == JNull {
      Catch(res, NullAuthorMessage);
      return;
    }
    var authorName := TemplateText(Member(levelData, "author"));
    if authorName.Failure? {
      Catch(res, authorName.error);
      return;
    }

    fetched := fetched + [ProfileUrl(authorName.value), LeaderboardUrl(id), CommentsUrl(id)];
    var song := DeriveSongUrl(levelData, decode);
    if song.Failure? {
      Catch(res, song.error);
      return;
    }
    var songUrl := song.value;

    var fullResponse := FullResponse(id, levelData, songUrl, profile, leaderboard, comments);

    res.Status(200);
    res.SendJson(fullResponse);
  }
}
