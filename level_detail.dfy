/**
 * The level-detail endpoint as one pure decision. The network results it awaits are inputs:
 * the level fetch, the three side fetches (author profile, level leaderboard, top comments) and
 * decodeURIComponent, which is kept uninterpreted. The result is the response sent and the URLs
 * fetched, in the order the requests are issued.
 */
module LevelDetail {
  import opened Wrappers
  import Assoc
  import opened JsValues
  import opened Http

  // ---------------------------------------------------------------- constants

  const LevelApi := "https://gdbrowser.com/api/level/"
  const ProfileApi := "https://gdbrowser.com/api/profile/"
  const LeaderboardApi := "https://gdbrowser.com/api/leaderboardLevel/"
  const CommentsApi := "https://gdbrowser.com/api/comments/"
  const CommentsQuery := "?count=20"
  const ThumbnailHost := "https://levelthumbs.prevter.me/thumbnail/"
  const ThumbnailSize := "/high"
  const LevelPage := "https://gdbrowser.com/"
  const NewgroundsListen := "https://www.newgrounds.com/audio/listen/"

  const MissingIdMessage := "Level ID is required."
  const UpstreamMessage := "Level not found or GDBrowser error"
  const InternalMessage := "Internal Server Error"
  const ProfileMissingMessage := "Profile not found"
  /** The TypeError message of Node's engine (V8) for `levelData.author` when the body is `null`. */
  const NullAuthorMessage := "Cannot read properties of null (reading 'author')"

  /** The cross-origin headers every response carries, in the order they are set. */
  const CorsHeaders: seq<(string, string)> := [
    ("Access-Control-Allow-Credentials", "true"),
    ("Access-Control-Allow-Origin", "*"),
    ("Access-Control-Allow-Methods", "GET,OPTIONS"),
    ("Access-Control-Allow-Headers",
     "X-CSRF-Token, X-Requested-With, Accept, Accept-Version, Content-Length, Content-MD5, Content-Type, Date, X-Api-Version")
  ]

  // ---------------------------------------------------------------- inputs

  /** The `id` query parameter: absent, given once, or given several times (an array of strings). */
  datatype QueryParam = Absent | Single(value: string) | Repeated(values: seq<string>)

  datatype Request = Request(httpMethod: string, id: QueryParam)

  /** A status a fetch Response can carry. */
  type FetchStatus = s: int | 200 <= s <= 599 witness 200

  /**
   * How a fetch ended: the promise rejected with an error message, or a response arrived whose
   * body either parses as JSON or makes `.json()` reject with a message.
   */
  datatype Fetched = Rejected(message: string) | Answered(status: FetchStatus, body: Result<Json, string>)

  /** A response's `ok` flag. */
  predicate IsOk(status: int)
  {
    200 <= status <= 299
  }

  /** The parameter as the handler reads it: undefined, a string, or an array of strings. */
  function IdValue(id: QueryParam): Option<Json>
  {
    match id
    case Absent => None
    case Single(s) => Some(JStr(s))
    case Repeated(vs) => Some(JArr(seq(|vs|, i requires 0 <= i < |vs| => JStr(vs[i]))))
  }

  /** The check that lets the request through: the parameter is present and not the empty string. */
  predicate IdPresent(id: QueryParam)
    ensures IdPresent(id) <==> Truthy(IdValue(id))
  {
    match id
    case Absent => false
    case Single(s) => s != ""
    case Repeated(_) => true
  }

  /** How the parameter prints inside a URL template: repeated values are joined by commas. */
  function IdText(id: QueryParam): (r: string)
    ensures TemplateText(IdValue(id)) == Success(r)
  {
    match id
    case Absent => "undefined"
    case Single(s) => s
    case Repeated(vs) =>
      JoinStrings(vs, |vs|);
      assert vs[..|vs|] == vs;
      JoinCommas(vs)
  }

  function JoinCommas(vs: seq<string>): string
  {
    if vs == [] then "" else if |vs| == 1 then vs[0] else JoinCommas(vs[..|vs| - 1]) + "," + vs[|vs| - 1]
  }

  /** Joining an array of strings with commas, as the engine does it, gives `JoinCommas` of the strings. */
  lemma {:induction false} JoinStrings(vs: seq<string>, n: nat)
    requires n <= |vs|
    ensures Join(IdValue(Repeated(vs)).value, n) == Success(JoinCommas(vs[..n]))
  {
    if n > 0 {
      JoinStrings(vs, n - 1);
      assert vs[..n][..n - 1] == vs[..n - 1];
    }
  }

  // ---------------------------------------------------------------- outputs

  datatype Exchange = Exchange(response: HttpResponse, fetched: seq<string>)

  function Reply(status: int, body: Option<Json>): HttpResponse
  {
    HttpResponse(status, CorsHeaders, body)
  }

  function ErrorBody(message: string): Json
  {
    JObj([("error", JStr(message))])
  }

  /** The catch block's reply: status 500 with the thrown error's message as `details`. */
  function InternalError(message: string): HttpResponse
  {
    Reply(500, Some(JObj([("error", JStr(InternalMessage)), ("details", JStr(message))])))
  }

  function LevelUrl(id: string): string { LevelApi + id }
  function ProfileUrl(author: string): string { ProfileApi + author }
  function LeaderboardUrl(id: string): string { LeaderboardApi + id }
  function CommentsUrl(id: string): string { CommentsApi + id + CommentsQuery }
  function ThumbnailUrl(id: string): string { ThumbnailHost + id + ThumbnailSize }
  function LevelPageUrl(id: string): string { LevelPage + id }

  /** The requests issued once the author's name is printed: the level itself, then the three side calls. */
  function AllFetches(id: string, author: string): seq<string>
  {
    [LevelUrl(id), ProfileUrl(author), LeaderboardUrl(id), CommentsUrl(id)]
  }

  // ---------------------------------------------------------------- side calls

  /**
   * The profile call's settled value: the parsed body of an ok answer, and null when the fetch
   * rejects, the answer is not ok, or its body does not parse.
   */
  function OrNull(f: Fetched): (r: Json)
    ensures r != JNull ==> f.Answered? && IsOk(f.status) && f.body == Success(r)
    ensures f.Answered? && IsOk(f.status) && f.body.Success? ==> r == f.body.value
  {
    match f
    case Answered(status, Success(v)) => if IsOk(status) then v else JNull
    case _ => JNull
  }

  /** The leaderboard and comments calls' settled value: as `OrNull`, with an empty list as the fallback. */
  function OrEmptyList(f: Fetched): (r: Json)
    ensures f.Answered? && IsOk(f.status) && f.body.Success? ==> r == f.body.value
    ensures !(f.Answered? && IsOk(f.status) && f.body.Success?) ==> r == JArr([])
  {
    match f
    case Answered(status, Success(v)) => if IsOk(status) then v else JArr([])
    case _ => JArr([])
  }

  /**
   * The author profile placed in the response: the profile when it is truthy, otherwise an error
   * object. It is therefore never falsy.
   */
  function AuthorProfile(profile: Fetched): (r: Json)
    ensures Truthy(Some(r))
    ensures r != ErrorBody(ProfileMissingMessage) ==>
              profile.Answered? && IsOk(profile.status) && profile.body == Success(r)
    ensures profile.Rejected? || !IsOk(profile.status) || profile.body.Failure? ==> r == ErrorBody(ProfileMissingMessage)
    ensures profile.Answered? && IsOk(profile.status) && profile.body.Success? ==>
              r == if Truthy(Some(profile.body.value)) then profile.body.value else ErrorBody(ProfileMissingMessage)
  {
    var data := OrNull(profile);
    if Truthy(Some(data)) then data else ErrorBody(ProfileMissingMessage)
  }

  // ---------------------------------------------------------------- derived links

  /**
   * The song URL: null unless `customSong >= 1`; then the decoded `songLink` when it is truthy,
   * else the Newgrounds page of `songID`. Converting a field that cannot be made primitive, or a
   * decoding failure, is the exception raised.
   */
  function SongUrl(data: Json, decode: string -> Result<string, string>): (r: Result<Json, string>)
    ensures r.Success? ==> r.value == JNull || r.value.JStr?
    ensures r == Success(JNull) <==> AtLeastOne(Member(data, "customSong")) == Success(false)
    ensures AtLeastOne(Member(data, "customSong")).Failure? ==> r == Failure(ConvertMessage)
  {
    match AtLeastOne(Member(data, "customSong"))
    case Failure(e) => Failure(e)
    case Success(false) => Success(JNull)
    case Success(true) =>
      var link := Member(data, "songLink");
      if Truthy(link) then
        match ToStr(link.value)
        case Failure(e) => Failure(e)
        case Success(text) =>
          match decode(text)
          case Success(url) => Success(JStr(url))
          case Failure(message) => Failure(message)
      else
        match TemplateText(Member(data, "songID"))
        case Failure(e) => Failure(e)
        case Success(songId) => Success(JStr(NewgroundsListen + songId))
  }

  function Extras(id: string, songUrl: Json): Json
  {
    JObj([("thumbnail_url", JStr(ThumbnailUrl(id))), ("song_url", songUrl), ("level_url", JStr(LevelPageUrl(id)))])
  }

  function ExtendedInfo(profile: Fetched, leaderboard: Fetched, comments: Fetched): Json
  {
    JObj([("author_profile", AuthorProfile(profile)),
          ("leaderboard", OrEmptyList(leaderboard)),
          ("comments", OrEmptyList(comments))])
  }

  /**
   * The response object: the level record spread first, then `extras` and `extended_info`
   * written over it. Every other key keeps its value and its place; the two written keys hold
   * the derived objects and are appended unless the record already had them.
   */
  function FullResponse(id: string, data: Json, songUrl: Json,
                        profile: Fetched, leaderboard: Fetched, comments: Fetched): (r: Json)
    ensures r.JObj?
    ensures Assoc.Lookup(r.members, "extras") ==
            Some(JObj([("thumbnail_url", JStr("https://levelthumbs.prevter.me/thumbnail/" + id + "/high")),
                       ("song_url", songUrl),
                       ("level_url", JStr("https://gdbrowser.com/" + id))]))
    ensures Assoc.Lookup(r.members, "extended_info") == Some(ExtendedInfo(profile, leaderboard, comments))
    ensures forall k :: k != "extras" && k != "extended_info" ==>
              Assoc.Lookup(r.members, k) == Assoc.Lookup(OwnEntries(data), k)
    ensures var ks := Assoc.Keys(OwnEntries(data));
            Assoc.Keys(r.members) ==
              ks + (if "extras" in ks then [] else ["extras"]) + (if "extended_info" in ks then [] else ["extended_info"])
  {
    var spread := OwnEntries(data);
    var extras := Extras(id, songUrl);
    var info := ExtendedInfo(profile, leaderboard, comments);
    var withExtras := Assoc.Put(spread, "extras", extras);
    var ks := Assoc.Keys(spread);
    Assoc.PutOthers(spread, "extras", extras);
    Assoc.PutKeys(spread, "extras", extras);
    assert Assoc.Keys(withExtras) == ks + (if "extras" in ks then [] else ["extras"]);
    assert "extended_info" in Assoc.Keys(withExtras) <==> "extended_info" in ks;
    Assoc.PutOthers(withExtras, "extended_info", info);
    Assoc.PutKeys(withExtras, "extended_info", info);
    JObj(Assoc.Put(withExtras, "extended_info", info))
  }

  // ---------------------------------------------------------------- the handler

  /**
   * The whole handler: the response it sends and the URLs it fetches. Every response carries
   * the cross-origin headers and only the preflight has no body; the handler fetches nothing,
   * only the level, or the level and the three side resources.
   */
  function Handle(req: Request, level: Fetched, profile: Fetched, leaderboard: Fetched, comments: Fetched,
                  decode: string -> Result<string, string>): (r: Exchange)
    ensures r.response.headers == CorsHeaders
    ensures r.response.body.None? <==> req.httpMethod == "OPTIONS"
    ensures |r.fetched| == 0 || |r.fetched| == 1 || |r.fetched| == 4
    ensures r.fetched != [] ==> r.fetched[0] == LevelUrl(IdText(req.id))
    ensures r.response.status in {200, 400, 500} || (level.Answered? && r.response.status == level.status)
  {
    if req.httpMethod == "OPTIONS" then Exchange(Reply(200, None), [])
    else if !IdPresent(req.id) then Exchange(Reply(400, Some(ErrorBody(MissingIdMessage))), [])
    else
      var id := IdText(req.id);
      match level
      case Rejected(message) => Exchange(InternalError(message), [LevelUrl(id)])
      case Answered(status, body) =>
        if !IsOk(status) then Exchange(Reply(status, Some(ErrorBody(UpstreamMessage))), [LevelUrl(id)])
        else
          match body
          case Failure(message) => Exchange(InternalError(message), [LevelUrl(id)])
          case Success(data) =>
            if data == JNull then Exchange(InternalError(NullAuthorMessage), [LevelUrl(id)])
            else
              match TemplateText(Member(data, "author"))
              case Failure(message) => Exchange(InternalError(message), [LevelUrl(id)])
              case Success(author) =>
                match SongUrl(data, decode)
                case Failure(message) => Exchange(InternalError(message), AllFetches(id, author))
                case Success(song) =>
                  Exchange(Reply(200, Some(FullResponse(id, data, song, profile, leaderboard, comments))),
                           AllFetches(id, author))
  }
}
