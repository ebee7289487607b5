# Instagram downloader endpoint — Dafny model

A model of the `/api/download` endpoint of a small web service that resolves an
Instagram post URL into direct media links. The service relays the request to
the SnapInsta resolver site. A verification call returns a token. A search call,
authenticated with that token, returns markup. The service turns each
`download-items` element of that markup into a `MediaItem` record and wraps the
records in an `APIResponse` envelope. Independently of the markup, it takes the
username from the requested URL with the pattern `instagram\.com/([^/?]+)`.

Modules:

- `Wrappers` (`wrappers.dfy`): `Option` and `Result`.
- `Username` (`username.dfy`): `extract_username` as a pure function with
  the semantics of a leftmost regular-expression search. The pattern matches at
  a position when the literal `instagram.com/` starts there and at least one
  character other than `/` and `?` follows. The greedy group captures the
  longest run of such characters.
- `Media` (`media.dfy`): the record loop. An element is an abstract `Container`:
  its first `img` (with or without `src`), its first `download-items__btn`
  element (with or without an `a.abutton`, whose `href` may be missing), and its
  first `i.icon` with its class list. `CollectMediaItems` is the loop itself, a
  method proved equal to `ParseItems`, a specification defined prefix by prefix.
  Lemmas about `ParseItems` show three things. It is a filter-map against an
  independent front-to-back filter (`Linked`). It raises exactly the first
  exception the source would raise. Every record has the fixed fields.
- `Download` (`download.dfy`): the branching of the endpoint as a pure function.
  The resolver's two replies are parameters: functions from the request payload
  to the decoded JSON reply. So is the markup parser. The function also returns
  the list of resolver calls made. This lets the contract state that the search
  call is never made after a falsy token.

Two exception paths of the loop are modelled as an explicit outcome, not
excluded: an `img` without `src` (a `KeyError`), and a link without `href`
(the record model rejects `media_url=None`). Both carry the container's
position. Either one ends the request (`Outcome.Raised`). As in the source,
the thumbnail lookup comes before the link check. So a container with a
`src`-less image raises even when it has no link.

In `main.py` the search data goes straight to the markup parser. There is one
link lookup per container. The thumbnail is the image's raw `src`. The username
always comes from the requested URL. A container without a recognised icon
class gets the type "unknown".

## Model

| member | source | states |
|---|---|---|
| `Username.NameRun` | main.py:39 | the greedy group `([^/?]+)`: a prefix of its input, made only of characters other than `/` and `?`, and maximal (it ends at the input's end or before a `/` or `?`) |
| `Username.NameRunUnique` | main.py:39 | those three properties determine the capture: any maximal run of name characters at the front is `NameRun` |
| `Username.FindMatch` | main.py:39 | the search returns the leftmost position at or after `from` where the whole pattern matches, or nothing when no position matches |
| `Username.Search` | main.py:39 | `re.search(...).group(1)`: absent exactly when no position matches; otherwise the capture at a matching position |
| `Username.ExtractUsername` | main.py:37-42 | the username is never empty and never contains `/` or `?` |
| `Username.ExtractUsernameSpec` | main.py:39-40 | with no match the result is "unknown"; with a match, the result is the maximal run after the leftmost matching `instagram.com/` |
| `Username.CapturedAtUnique` | main.py:39-40 | the capture at a given match position is unique |
| `Username.ExampleProfileUrl` | main.py:39-40 | `https://instagram.com/somebody/p/ABC123/` gives `somebody` |
| `Username.ExampleSkipsEmptyCapture` | main.py:39-40 | `instagram.com/?x` has no match (the group needs one character) and gives "unknown" |
| `Media.ClassifyType` | main.py:119-126 | the type is "video" iff `icon-video` is a class, even alongside `icon-dlimage`; "image" iff `icon-dlimage` is a class and `icon-video` is not; "unknown" otherwise, including when there is no icon |
| `Media.ParseItems` | main.py:102-135 | after the loop has seen the containers, there are never more records than containers, and a raised error points at one of them |
| `Media.Linked` | main.py:110-114 | the containers that are kept are exactly those with an `a.abutton` inside a `download-items__btn` element, never more than the input |
| `Media.ErrorIsFinal` | main.py:104-135 | once an exception is raised for a prefix of the containers, the later containers change nothing: the whole loop raises the same error |
| `Media.ParseItemsIsFilterMap` | main.py:104-135 | when no container raises, the loop succeeds. It emits one record per linked container, in container order; unlinked containers give none |
| `Media.ParseItemsError` | main.py:106-130 | the loop raises iff some container has an `img` without `src` or a link without `href`. The error is that of the first such container, and the `src` lookup comes first |
| `Media.RecordFields` | main.py:106-134 | every record has source type "post", no caption and no timestamp, and a type of video/image/unknown. Its media URL is the `href` of some linked container, its thumbnail is that container's first `img` `src` (absent with no `img`), and its type is that container's classification |
| `Media.ExampleVideoThenUnlinked` | main.py:102-135 | a linked container with a video icon, followed by one without a link, gives a single video record |
| `Media.CollectMediaItems` | main.py:100-135 | the imperative loop (skip with `continue`, step-by-step type assignment, appending to the record list, exceptions) computes exactly `ParseItems` of its input |
| `Download.SnapinstaToken` | main.py:44-54 | a reply without success yields no token; a successful reply yields its `token` field, whatever it holds |
| `Download.MediaHtml` | main.py:56-72 | a reply whose status is not "ok" yields no markup; an "ok" reply yields its `data` field, whatever it holds |
| `Download.ErrorEnvelope` | main.py:84-96 | the error envelope has status "error", no media, a count equal to the media length (0), the requested URL, the URL's username and the default source "GetMedia" |
| `Download.DownloadMedia` | main.py:76-145 | every envelope has `media_count == len(media)`, the requested URL and the URL's username. A falsy token gives the error envelope after the verification call alone, with no search call. Falsy markup gives the same envelope. Status is "ok" iff the full path completes, and then it carries exactly the loop's records. An exception comes only from the loop, and an exception of the loop on the full path always ends the request as `Raised` with that error |
| `Download.UsernameIgnoresMarkup` | main.py:83-145 | corollary of `DownloadMedia`: the username in any two envelopes for the same URL is the same, whatever the resolver replies and the markup contain |
| `Download.EmptyMarkupIsOk` | main.py:98-145 | on the full path, markup with no containers gives status "ok" with zero records |
| `Download.RejectedVerification` | main.py:83-88 | a verification reply without success gives the error envelope, and the search is not called |
| `Download.OkResponseRecords` | main.py:98-145 | on the full path with well-formed containers, the response is "ok". It counts the linked containers and lists one record per linked container, in order |

## Left out

- FastAPI routing, the `Query` parameter and the pydantic models' validation and coercion are framework glue. The two response shapes are plain datatypes. The one validation failure the loop can hit (a `None` media URL) is modelled as an error.
- The HTTP client, the `HEADERS` constant, the fixed payload fields (`t`, `v`, `lang`), the timeout, `async`/`await` and JSON decoding are network I/O. The resolver is a parameter that maps the varying payload fields (URL, token) to the decoded reply. Network errors, timeouts and undecodable bodies raise exceptions in the source; they are not modelled.
- JSON values of other types in `success`, `token`, `status` and `data` are not modelled. `success` is a boolean; the others are optional strings. A token or markup is falsy when it is absent or empty.
- BeautifulSoup/lxml parsing and the `find`/`find_all` search semantics belong to a foreign library. The parser is a parameter that yields the abstract containers. Each container already holds the first matching tag of each lookup.
- `Username.ExtractUsername`: the `try`/`except` fallback to "unknown" is not modelled, because the search on a string cannot raise.
- The FastAPI handling of an exception raised by the loop (an HTTP 500 reply) is not modelled. The model stops at `Outcome.Raised` with the error and the container position.
