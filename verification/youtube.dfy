/** notflixbot/youtube.py: the video id found in a YouTube link, and the
    preview `unfurl` builds for a message.  The Invidious API request is a
    parameter; so is `urlparse` followed by `parse_qs`. */
module Youtube {
  import opened Wrappers
  import opened Json
  import opened Exceptions
  import opened PyStr
  import opened Urls

  const NoId: Exc := ValueError("no youtube id found")

  /** `get_youtube_video_id`: a "youtube.com" link gives the first `v`
      value, or None when there is none; otherwise a "youtu.be" link gives
      its path without the first character; anything else is a ValueError. */
  function GetYoutubeVideoId(parse: UrlParser, url: string): (r: Result<Option<string>, Exc>)
    ensures Contains(url, "youtube.com") ==>
              (r.Success? && ("v" in parse(url).query <==> r.value.Some?))
    ensures Contains(url, "youtube.com") && "v" in parse(url).query ==>
              r == Success(Some(parse(url).query["v"][0]))
    ensures !Contains(url, "youtube.com") && Contains(url, "youtu.be") ==>
              r == Success(Some(if |parse(url).path| == 0 then "" else parse(url).path[1..]))
    ensures r.Failure? <==> !Contains(url, "youtube.com") && !Contains(url, "youtu.be")
    ensures r.Failure? ==> r.error == NoId
  {
    if Contains(url, "youtube.com") then
      var q := parse(url).query;
      if "v" in q then Success(Some(q["v"][0])) else Success(None)
    else if Contains(url, "youtu.be") then
      var p := parse(url).path;
      Success(Some(if |p| == 0 then "" else p[1..]))
    else
      Failure(NoId)
  }

  /** "youtube.com" is tested first: a link naming both hosts is read as a
      youtube.com link. */
  lemma YoutubeComWins(parse: UrlParser, url: string)
    requires Contains(url, "youtube.com") && Contains(url, "youtu.be")
    ensures GetYoutubeVideoId(parse, url).Success?
    ensures GetYoutubeVideoId(parse, url).value ==
              if "v" in parse(url).query then Some(parse(url).query["v"][0]) else None
  {
  }

  /** A link at a given position names its host, so the substring test
      accepts it wherever it sits in the word. */
  lemma {:induction false} HostAnywhere(parse: UrlParser, pre: string, post: string)
    ensures Contains(pre + "youtu.be" + post, "youtu.be")
    ensures GetYoutubeVideoId(parse, pre + "youtu.be" + post).Success?
  {
    var w := pre + "youtu.be" + post;
    assert OccursAt(w, "youtu.be", |pre|) by {
      assert w[|pre|..|pre| + 8] == "youtu.be";
    }
    ContainsIff(w, "youtu.be");
  }

  /** `urljoin(iv_url, "/watch?v=") + ytid`: the Invidious site, then the
      watch path ending in the id. */
  function WatchUrl(origin: string, id: string): (u: string)
    ensures StartsWith(u, origin) && EndsWith(u, "/watch?v=" + id)
  {
    var u := origin + "/watch?v=" + id;
    assert u == origin + ("/watch?v=" + id);
    assert u[..|origin|] == origin;
    assert u[|u| - |"/watch?v=" + id|..] == "/watch?v=" + id;
    u
  }

  /** What `unfurl` produces: no preview, or the markdown and plain texts. */
  datatype Unfurled = NoPreview | Preview(msg: string, plain: string)

  /** The Invidious `/api/v1/videos/<id>` lookup for an id (None when the
      link had no `v`): the decoded JSON, or a request error, which `unfurl`
      catches. */
  type VideoLookup = Option<string> -> Result<JValue, Exc>

  const Camera: string := "\U{1F3A5} "

  /** `unfurl`: only the first space-separated word is looked at, because
      every path through the loop body returns.  `origin` is the Invidious
      site that `urljoin(iv_url, "/watch?v=")` keeps.  A missing title is a
      KeyError and a link without `v` fails to join its None id, both
      raised out of `unfurl`. */
  function Unfurl(parse: UrlParser, lookup: VideoLookup, origin: string, body: string,
                  compound: JValue -> string): (r: Result<Unfurled, Exc>)
    ensures r.Success? && r.value.Preview? ==>
              GetYoutubeVideoId(parse, Strip(Split(body, ' ')[0])).Success?
  {
    var w := Split(body, ' ')[0];
    match GetYoutubeVideoId(parse, Strip(w))
    case Failure(_) => Success(NoPreview)
    case Success(ytid) =>
      match lookup(ytid)
      case Failure(_) => Success(NoPreview)
      case Success(j) =>
        if !j.JObj? then Failure(TypeError)
        else if "title" !in j.fields then Failure(KeyError)
        else if ytid.None? then Failure(TypeError)
        else
          var title := Format(j.fields["title"], compound);
          Success(Preview(Camera + title + " | [YouBahn](" + WatchUrl(origin, ytid.value) + ")",
                          Camera + title))
  }

  /** Whatever follows the first space is never read. */
  lemma {:induction false} UnfurlFirstWordOnly(parse: UrlParser, lookup: VideoLookup, origin: string,
                                               word: string, rest: string, compound: JValue -> string)
    requires ' ' !in word
    ensures Unfurl(parse, lookup, origin, word + " " + rest, compound) ==
            Unfurl(parse, lookup, origin, word, compound)
  {
    assert word + " " + rest == word + [' '] + rest;
    SplitAtSep(word, ' ', rest);
    SplitNoSep(word, ' ');
  }

  /** A first word that is no YouTube link gives no preview, and nothing is
      requested. */
  lemma UnfurlNoLink(parse: UrlParser, lookup: VideoLookup, origin: string, body: string,
                     compound: JValue -> string)
    requires var w := Strip(Split(body, ' ')[0]);
      !Contains(w, "youtube.com") && !Contains(w, "youtu.be")
    ensures Unfurl(parse, lookup, origin, body, compound) == Success(NoPreview)
  {
  }

  /** A failed request gives no preview. */
  lemma UnfurlRequestFails(parse: UrlParser, lookup: VideoLookup, origin: string, body: string,
                           compound: JValue -> string)
    requires var id := GetYoutubeVideoId(parse, Strip(Split(body, ' ')[0]));
      id.Success? && lookup(id.value).Failure?
    ensures Unfurl(parse, lookup, origin, body, compound) == Success(NoPreview)
  {
  }

  /** With a video and its title the preview is the camera, the title and a
      link to the video on the Invidious site, ending in the id. */
  lemma UnfurlPreview(parse: UrlParser, lookup: VideoLookup, origin: string, body: string,
                      compound: JValue -> string, id: string, title: string)
    requires GetYoutubeVideoId(parse, Strip(Split(body, ' ')[0])) == Success(Some(id))
    requires lookup(Some(id)).Success? && lookup(Some(id)).value.JObj?
    requires "title" in lookup(Some(id)).value.fields
    requires lookup(Some(id)).value.fields["title"] == JStr(title)
    ensures Unfurl(parse, lookup, origin, body, compound) ==
              Success(Preview(Camera + title + " | [YouBahn](" + WatchUrl(origin, id) + ")",
                              Camera + title))
  {
  }

  /** An answer that is a dict without `title` raises KeyError out of
      `unfurl`, and an answer that is not a dict raises TypeError; neither
      is among the exceptions it catches. */
  lemma UnfurlMissingTitle(parse: UrlParser, lookup: VideoLookup, origin: string, body: string,
                           compound: JValue -> string)
    requires var id := GetYoutubeVideoId(parse, Strip(Split(body, ' ')[0]));
      id.Success? && lookup(id.value).Success?
    ensures var j := lookup(GetYoutubeVideoId(parse, Strip(Split(body, ' ')[0])).value).value;
      && (j.JObj? && "title" !in j.fields ==> Unfurl(parse, lookup, origin, body, compound) == Failure(KeyError))
      && (!j.JObj? ==> Unfurl(parse, lookup, origin, body, compound) == Failure(TypeError))
  {
  }

  /** A youtube.com link without `v` raises TypeError out of `unfurl`
      once the request has succeeded and carries a title. */
  lemma UnfurlMissingV(parse: UrlParser, lookup: VideoLookup, origin: string, body: string,
                       compound: JValue -> string)
    requires var w := Strip(Split(body, ' ')[0]);
      Contains(w, "youtube.com") && "v" !in parse(w).query
    requires lookup(None).Success? && lookup(None).value.JObj?
    requires "title" in lookup(None).value.fields
    ensures Unfurl(parse, lookup, origin, body, compound) == Failure(TypeError)
  {
  }
}
