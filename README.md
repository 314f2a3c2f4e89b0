# githubutilities: the GitHub REST client, modelled in Dafny

This project models `lib/githubapi.py`, the small GitHub REST API v3 client
that the githubutilities scripts share:

- `_request` builds one HTTP request: the URL under `https://api.github.com`, the
  `Accept` and `User-Agent` headers, an optional `Authorization: token ...`
  header, and the parameters. A GET carries the parameters in the query string.
  Any other method carries them as a compact JSON body with
  `Content-Type: application/json`. An HTTP error status is re-raised as
  `APIRequestError(code, response)`.
- `_request_paged` requests pages 1, 2, 3, ... of a list endpoint, each with
  `page` and `per_page=20` merged into a copy of the caller's parameters. It
  yields the items of each page and stops after the first page that yields none.
- `update_repository_properties` builds its PATCH body from `name` plus every
  optional argument that is not `None`. It does this through the closure
  `add_property`, which stores the argument under its key.
- The endpoint functions each make one `_request` or `_request_paged` call. User
  and organisation names in their paths go through `quote`.

Modules:

- `Wrappers`: `Option` and `Result`.
- `PyDict`: an insertion-ordered Python `dict` with string keys. `Set` is
  `d[k] = v`.
- `PyBytes`: `bytes`, its `repr` and its text.
- `PyInt`: `str(n)` for a page number.
- `ApiRequest`: `_request`.
- `ApiPaging`: `_request_paged`.
- `ApiEndpoints`: the endpoint functions.

The encoders (`urlencode`, `json.dumps`, `quote`) and the transport (`urlopen`
with `json.load`) are Python standard-library functions. The model leaves them
uninterpreted and passes them in as `Codec` and `Env`. The encoders see the ordered dictionary, so the order in
which keys are inserted is part of what the model states.

## Model

| member | source | states |
|---|---|---|
| PyDict.Set | lib/githubapi.py:160-162 | `d[k] = v`: `k` then holds `v`, every other key keeps its value, the key set gains `k`, and a new key is appended to the key order while an existing one keeps its place |
| PyDict.DistinctKeysIff | lib/githubapi.py:31-38 | a dictionary holds each key at most once: no two entries share a key |
| ApiRequest.BaseHeaders | lib/githubapi.py:29-38 | headers are `Accept` and `User-Agent` with the fixed values, then `Authorization: token <t>` exactly when a token is given; never `Content-Type` |
| ApiRequest.BuildRequest | lib/githubapi.py:23-64 | the URL is the base URL, `/` and the path. A GET appends `?` and the urlencoded parameters only when there are some, and never has a body. Any other method keeps the bare URL and has a JSON body plus `Content-Type` exactly when there are parameters. The header order and values are stated, and the method is passed through |
| ApiRequest.ErrorFromHttp | lib/githubapi.py:66-71 | an HTTP error becomes `APIRequestError` with the same code and a response text whose bytes are exactly the body (the corrected behaviour; see Findings) |
| ApiRequest.ErrorFromHttpAsWritten | lib/githubapi.py:71 | `str(err.read())` gives the body's `repr`: it starts with `b`, is at least three characters longer than the body, and is never the body's text |
| ApiRequest.Request | lib/githubapi.py:66-77 | corrected `_request` (see Findings): the result is success exactly when the transport answers with a response, carrying the decoded JSON; an HTTP error yields `APIRequestError` with the status code and the body as text |
| ApiRequest.RequestAsWritten | lib/githubapi.py:66-77 | `_request` as written: success exactly when the transport answers with a response, carrying the decoded JSON; an HTTP error yields `APIRequestError` with the status code and `str` of the body bytes, which is never the body's text |
| PyBytes.BytesRepr | lib/githubapi.py:71 | `str` of a `bytes` value starts with `b`, is enclosed in matching quotes, and is at least three characters longer than the bytes |
| PyBytes.BytesReprPlain | lib/githubapi.py:71 | for every body of printable ASCII without `'` or `\`, such as a plain JSON error body, `str` of the bytes is exactly `b'` + the body's text + `'` |
| PyBytes.DecodeTextRoundTrip | lib/githubapi.py:71 | decoding the error body as text loses nothing: encoding the text gives back the same bytes |
| PyBytes.ReprOfEmptyObject | lib/githubapi.py:71 | for the body `{}` the code reports `b'{}'` while the body's text is `{}` |
| PyInt.NatToString | lib/githubapi.py:104 | `str(page)` is a non-empty string of decimal digits with no leading zero |
| PyInt.ParseNatToString | lib/githubapi.py:104 | `int(str(n)) == n` |
| PyInt.NatToStringInjective | lib/githubapi.py:104 | different page numbers give different `page` strings |
| ApiPaging.DefaultItems | lib/githubapi.py:89-91 | the default processor yields a JSON array's items, an object's keys and a string's characters, in order; only null, booleans and numbers are not iterable and raise |
| ApiPaging.PagedParams | lib/githubapi.py:101-105 | the copy holds `page=str(page)` and `per_page="20"` and every other caller parameter unchanged. The caller's key order is a prefix of the result's, and new paging keys come last, `page` before `per_page` |
| ApiPaging.RequestPaged | lib/githubapi.py:96-119 | pages 1, 2, ... are requested in order. The loop stops at the first page that yields nothing or raises, and every earlier page yielded something. The items returned are those pages' items in page order, and the error is the last page's exception, if it raised |
| ApiPaging.YieldItems | lib/githubapi.py:112-116 | the inner loop yields every item of a processed page, in order, after those already yielded, and keeps the paginator active exactly when the page yielded something |
| ApiPaging.PagesOfPage | lib/githubapi.py:102-114 | one pass of the loop body for a page, over the corrected `_request` (see Findings): the HTTP error of its paged GET becomes the page's exception, otherwise the page yields what the item processor makes of the decoded response, and with the default processor a JSON array yields its items |
| ApiPaging.RequestPagedQuery | lib/githubapi.py:80-119 | `_request_paged` whole: the drained loop over the pages that the paged `_request` and the item processor give, with the page order, stop page, items and error of `RequestPaged` |
| ApiPaging.PageRequestIsQueryGet | lib/githubapi.py:107-110 | each page is a GET with the token header and no body, whose URL always has a query string: the paged parameters are never empty |
| ApiPaging.PagedParamsDistinct | lib/githubapi.py:102-119 | two different pages are never requested with the same parameters |
| ApiPaging.ItemsBeforePrefix | lib/githubapi.py:112-116 | items yielded for earlier pages are a prefix of those yielded through later pages |
| ApiPaging.ItemsBeforeFullPages | lib/githubapi.py:100-119 | full pages of 20 items before page `n` contribute `20 * (n - 1)` items and none of them ends the loop |
| ApiPaging.EmptyFirstPage | lib/githubapi.py:112-116 | an empty first page yields nothing after exactly one request |
| ApiPaging.FullPagesThenEmpty | lib/githubapi.py:100-119 | `n` full pages then an empty one give `20 * n` items, page `j`'s items at positions `20 * (j - 1)` to `20 * j`, after `n + 1` requests |
| ApiEndpoints.RepositoryListQuery | lib/githubapi.py:126-141 | a repository list page's query holds `type`, `page`, `per_page` in that order, with the given type, the page number and 20 |
| ApiEndpoints.RepositoryListPage | lib/githubapi.py:126-141 | a repository list page is a GET of its path with that query in the URL, the token header and no body |
| ApiEndpoints.UserRepositoryListPage | lib/githubapi.py:126-130 | `user_repository_list` pages through `user/repos` with the `type` filter |
| ApiEndpoints.OrganizationRepositoryListPage | lib/githubapi.py:133-141 | `organization_repository_list` pages through `orgs/<quoted name>/repos` with the `type` filter |
| ApiEndpoints.UserSubscriptionListPage | lib/githubapi.py:181-183 | `user_subscription_list` pages through `user/subscriptions` with only `page` and `per_page` |
| ApiEndpoints.RepositorySubscriptionRequest | lib/githubapi.py:186-191 | `repository_subscription` is a GET of `repos/<owner>/<repository>/subscription` with no query, no body and no `Content-Type` |
| ApiEndpoints.RepositoryWebhookListRequest | lib/githubapi.py:210-217 | `repository_webhook_list` is a single, unpaged GET of `repos/<owner>/<repository>/hooks` |
| ApiEndpoints.SetUserRepositorySubscriptionRequest | lib/githubapi.py:194-207 | `set_user_repository_subscription` PUTs `subscribed` then `ignored` with their values as a JSON body with `Content-Type` |
| ApiEndpoints.AddProperty | lib/githubapi.py:160-162 | `add_property` adds `key` with the argument exactly when the argument is not `None` and touches no other key |
| ApiEndpoints.PatchCollectionKeys | lib/githubapi.py:158-170 | the body's keys are exactly `name` plus, for each argument that is not `None`, its mapped key |
| ApiEndpoints.PatchName | lib/githubapi.py:158 | `name` always holds the repository name |
| ApiEndpoints.PatchDefaultBranch | lib/githubapi.py:164 | `default_branch` holds the argument when given and is absent otherwise |
| ApiEndpoints.PatchDescription | lib/githubapi.py:165 | `description` holds the argument when given and is absent otherwise |
| ApiEndpoints.PatchHomepage | lib/githubapi.py:166 | `homepage` holds the argument when given and is absent otherwise |
| ApiEndpoints.PatchIssues | lib/githubapi.py:167 | `issues` is sent under `has_issues` when given and is absent otherwise |
| ApiEndpoints.PatchPrivate | lib/githubapi.py:168 | `private` holds the argument when given and is absent otherwise |
| ApiEndpoints.PatchProjects | lib/githubapi.py:169 | `projects` is sent under `has_projects` when given and is absent otherwise |
| ApiEndpoints.PatchWiki | lib/githubapi.py:170 | `wiki` is sent under `has_wiki` when given and is absent otherwise |
| ApiEndpoints.UpdateRepositoryProperties | lib/githubapi.py:145-178 | `update_repository_properties` is a PATCH of `repos/<owner>/<repository>` whose body has exactly the keys above, each with its value |
| ApiEndpoints.UpdateRepositoryPropertiesRequest | lib/githubapi.py:172-178 | the update always sends a JSON body with `Content-Type`, since the body holds at least `name` |

## Left out

- Network I/O: `urlopen`, `json.load` and `response.close()` are the transport parameter of `Env`. Only `HTTPError` is modelled as a failure: connection errors, and a `json.load` failure on a successful response whose body is empty or not JSON, are not.
- `urllib.parse.urlencode`, `json.dumps(separators=(",", ":"))` and `urllib.parse.quote` are uninterpreted. Their output formats are not stated beyond `json.dumps` never giving an empty string. `quote` keeps `/` unescaped by default, so a `/` in an owner or repository name is not percent-encoded; the model leaves `quote` abstract and does not decide this.
- `bytes(data_send, "ascii")`: the body is kept as text. `json.dumps` escapes every non-ASCII character by default, so this conversion cannot fail and only the byte form is left out.
- JSON numbers are integers only; floating point is left out.
- `Json.JObject` holds its members as a sequence that may repeat a key, which `json.load` never produces; on such a value `DefaultItems` would yield a key twice. Decoded responses come only from the transport, so the model states nothing about duplicate keys.
- ApiPaging.RequestPagedQuery: the paged requests use the corrected `ApiRequest.Request`, so an HTTP error on a page carries the body's text rather than its `repr` (see Findings).
- ApiPaging.RequestPaged: the generator is modelled drained. Items yielded before a later page raises are returned together with that error, not one by one, and a custom item processor is a function from a page to its items or an exception. A caller that stops iterating early is not modelled.
- ApiPaging.RequestPaged: requires that some page ends the loop. With an endpoint that never returns an empty page the source loops for ever, and the model does not cover that run.
- ApiEndpoints.UpdateRepositoryProperties: the closure mutating `patch_collection` is modelled as reassigning the value returned by `AddProperty`. The key order of the PATCH body is not stated, because a JSON object's member order does not change its meaning; the key set and every value are stated.
- The endpoint functions that return a generator or a response are modelled by the call they make (`ApiCall`) and the request it sends. What GitHub returns is the transport's.
- PyBytes.DecodeText: decoding maps each byte to one character, which agrees with UTF-8 only on ASCII bodies.

## Findings

| source | as written | input that shows it | evidently intended | confidence | as-written member | corrected member |
|---|---|---|---|---|---|---|
| lib/githubapi.py:71 | `APIRequestError(err.code, str(err.read()))` stores `str` of a `bytes` value, which is its `repr` | an HTTP error whose body is `{}`: `response` is `b'{}'`, not `{}` | the body's text, as from `err.read().decode()` | not executed | ApiRequest.ErrorFromHttpAsWritten, ApiRequest.RequestAsWritten, PyBytes.ReprOfEmptyObject, PyBytes.BytesReprPlain | ApiRequest.ErrorFromHttp, ApiRequest.Request, ApiPaging.PagesOfPage, ApiPaging.RequestPagedQuery |
