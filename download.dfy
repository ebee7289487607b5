/**
 * The `/api/download` endpoint: ask the resolver site for a token, then for
 * the search markup, then turn the markup's containers into records, and wrap
 * everything in the response envelope.  The two network calls and the markup
 * parser are parameters: `verify` and `search` give the reply the resolver
 * sends for a request payload, and `findItems` gives the `download-items`
 * containers found in a markup string.
 */
module Download {
  import opened Wrappers
  import opened Username
  import opened Media

  /** The decoded reply of the user-verification call. */
  datatype VerifyReply = VerifyReply(success: bool, token: Option<string>)

  /** The decoded reply of the search call. */
  datatype SearchReply = SearchReply(status: Option<string>, data: Option<string>)

  /** A request sent to the resolver site, with the payload fields that vary. */
  datatype GatewayCall = VerifyCall(url: string) | SearchCall(url: string, token: string)

  /** The `APIResponse` envelope. */
  datatype ApiResponse = ApiResponse(
    media: seq<MediaItem>,
    mediaCount: int,
    requestedUrl: string,
    sourceOfData: string,
    status: string,
    username: string)

  /** What the endpoint ends with: an envelope, or an exception from the record loop. */
  datatype Outcome = Response(body: ApiResponse) | Raised(error: ParseError)

  /** The calls made to the resolver, in order, and the outcome. */
  datatype Run = Run(calls: seq<GatewayCall>, outcome: Outcome)

  /** Python truthiness of an optional string: present and non-empty. */
  predicate Truthy(s: Option<string>) {
    s.Some? && s.value != ""
  }

  /** `get_snapinsta_token`: the token, unless the reply is not a success. */
  function SnapinstaToken(reply: VerifyReply): (t: Option<string>)
    ensures !reply.success ==> t.None?
    ensures reply.success ==> t == reply.token
  {
    if !reply.success then None else reply.token
  }

  /** `get_media_html`: the markup, unless the reply's status is not "ok". */
  function MediaHtml(reply: SearchReply): (h: Option<string>)
    ensures reply.status != Some("ok") ==> h.None?
    ensures reply.status == Some("ok") ==> h == reply.data
  {
    if reply.status != Some("ok") then None else reply.data
  }

  /** The envelope given for a request whose token or markup is missing. */
  function ErrorEnvelope(url: string): (e: ApiResponse)
    ensures e.status == "error" && e.media == [] && e.mediaCount == |e.media|
    ensures e.requestedUrl == url && e.username == ExtractUsername(url)
    ensures e.sourceOfData == "GetMedia"
  {
    ApiResponse([], 0, url, "GetMedia", "error", ExtractUsername(url))
  }

  /** The whole endpoint, with the resolver and the parser as parameters. */
  function DownloadMedia(
    url: string,
    verify: string -> VerifyReply,
    search: (string, string) -> SearchReply,
    findItems: string -> seq<Container>): (run: Run)
    // every envelope is consistent and describes the requested URL
    ensures run.outcome.Response? ==>
              var b := run.outcome.body;
              && b.mediaCount == |b.media|
              && b.requestedUrl == url
              && b.username == ExtractUsername(url)
              && b.sourceOfData == "GetMedia"
              && (b.status == "ok" || (b.status == "error" && b.media == []))
    // a falsy token: error envelope, and the search call is never made
    ensures !Truthy(SnapinstaToken(verify(url))) ==>
              run.calls == [VerifyCall(url)] && run.outcome == Response(ErrorEnvelope(url))
    // a truthy token: the search is made with it, after the verification
    ensures Truthy(SnapinstaToken(verify(url))) ==>
              run.calls == [VerifyCall(url), SearchCall(url, SnapinstaToken(verify(url)).value)]
    // falsy markup: the same error envelope
    ensures Truthy(SnapinstaToken(verify(url)))
            && !Truthy(MediaHtml(search(url, SnapinstaToken(verify(url)).value))) ==>
              run.outcome == Response(ErrorEnvelope(url))
    // "ok" only on the full path, carrying exactly the loop's records
    ensures (run.outcome.Response? && run.outcome.body.status == "ok") <==>
              && Truthy(SnapinstaToken(verify(url)))
              && Truthy(MediaHtml(search(url, SnapinstaToken(verify(url)).value)))
              && ParseItems(findItems(MediaHtml(search(url, SnapinstaToken(verify(url)).value)).value)).Ok?
    ensures run.outcome.Response? && run.outcome.body.status == "ok" ==>
              run.outcome.body.media
                == ParseItems(findItems(MediaHtml(search(url, SnapinstaToken(verify(url)).value)).value)).value
    // an exception can only come from the record loop, and one from the loop is never recovered
    ensures run.outcome.Raised? ==>
              ParseItems(findItems(MediaHtml(search(url, SnapinstaToken(verify(url)).value)).value))
                == Err(run.outcome.error)
    ensures && Truthy(SnapinstaToken(verify(url)))
            && Truthy(MediaHtml(search(url, SnapinstaToken(verify(url)).value)))
            && ParseItems(findItems(MediaHtml(search(url, SnapinstaToken(verify(url)).value)).value)).Err? ==>
              run.outcome
                == Raised(ParseItems(findItems(MediaHtml(search(url, SnapinstaToken(verify(url)).value)).value)).error)
  {
    var token := SnapinstaToken(verify(url));
    if !Truthy(token) then
      Run([VerifyCall(url)], Response(ErrorEnvelope(url)))
    else
      var calls := [VerifyCall(url), SearchCall(url, token.value)];
      var htmlContent := MediaHtml(search(url, token.value));
      if !Truthy(htmlContent) then
        Run(calls, Response(ErrorEnvelope(url)))
      else
        match ParseItems(findItems(htmlContent.value))
        case Err(e) => Run(calls, Raised(e))
        case Ok(mediaItems) =>
          Run(calls, Response(ApiResponse(mediaItems, |mediaItems|, url, "GetMedia", "ok", ExtractUsername(url))))
  }

  /** The username never depends on the resolver or the markup. */
  lemma UsernameIgnoresMarkup(
    url: string,
    verify1: string -> VerifyReply, search1: (string, string) -> SearchReply, find1: string -> seq<Container>,
    verify2: string -> VerifyReply, search2: (string, string) -> SearchReply, find2: string -> seq<Container>)
    ensures var o1, o2 := DownloadMedia(url, verify1, search1, find1).outcome,
                          DownloadMedia(url, verify2, search2, find2).outcome;
            o1.Response? && o2.Response? ==> o1.body.username == o2.body.username
  {
  }

  /** Zero containers on the full path is still a success, with no records. */
  lemma EmptyMarkupIsOk(
    url: string, verify: string -> VerifyReply, search: (string, string) -> SearchReply,
    findItems: string -> seq<Container>)
    requires Truthy(SnapinstaToken(verify(url)))
    requires Truthy(MediaHtml(search(url, SnapinstaToken(verify(url)).value)))
    requires findItems(MediaHtml(search(url, SnapinstaToken(verify(url)).value)).value) == []
    ensures DownloadMedia(url, verify, search, findItems).outcome
              == Response(ApiResponse([], 0, url, "GetMedia", "ok", ExtractUsername(url)))
  {
  }

  /** A rejected verification reply gives the error envelope with zero media. */
  lemma RejectedVerification(
    url: string, verify: string -> VerifyReply, search: (string, string) -> SearchReply,
    findItems: string -> seq<Container>)
    requires !verify(url).success
    ensures DownloadMedia(url, verify, search, findItems)
              == Run([VerifyCall(url)], Response(ErrorEnvelope(url)))
  {
  }

  /** On the full path with well-formed containers, the response lists one record per
    * linked container, in order, and counts them. */
  lemma {:induction false} OkResponseRecords(
    url: string, verify: string -> VerifyReply, search: (string, string) -> SearchReply,
    findItems: string -> seq<Container>)
    requires Truthy(SnapinstaToken(verify(url)))
    requires Truthy(MediaHtml(search(url, SnapinstaToken(verify(url)).value)))
    requires var cs := findItems(MediaHtml(search(url, SnapinstaToken(verify(url)).value)).value);
             forall i :: 0 <= i < |cs| ==> !Raises(cs[i])
    ensures var cs := findItems(MediaHtml(search(url, SnapinstaToken(verify(url)).value)).value);
            var o := DownloadMedia(url, verify, search, findItems).outcome;
            && o.Response? && o.body.status == "ok"
            && o.body.mediaCount == |Linked(cs)|
            && forall k :: 0 <= k < |Linked(cs)| ==> o.body.media[k] == RecordOf(Linked(cs)[k])
  {
    ParseItemsIsFilterMap(findItems(MediaHtml(search(url, SnapinstaToken(verify(url)).value)).value));
  }
}
