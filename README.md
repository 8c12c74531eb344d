# Synonym service: a Dafny model

The synonym app looks a word up in two thesaurus web services, Datamuse and
API Ninjas, and merges what they return. This project models the parts of
the back end and the Streamlit front end that compute something. All of it
is proved with Dafny.

- `wrappers.dfy`: `Option`, `Result` and `Min`.
- `text.dfy`: the Python string operations the code relies on. It covers
  `str.split()` and `str.strip()` without arguments, over Python's
  whitespace set, plus ASCII `str.lower()`, `str(int)` and `sep.join`.
- `providers.dfy`: the two configured services.
  - The request sent to each service.
  - What the HTTP client can produce for one request (`Reply`).
  - How `get_synonyms_from_api` turns that into synonyms or an
    `ExternalAPIError`: the status check, the per-service extraction and
    the single-token filter.
- `aggregator.dfy`: `get_combined_synonyms`.
  - It is an imperative method with the two loops of the source.
  - It is proved against a fold (`Collect`) over the services' outcomes in
    configuration order.
  - Lemmas state what the fold gathers: the union of the sets, `sources`
    and `errors`.
  - The file also models the `/synonyms` endpoint and its
    exception-to-status mapping.
- `frontend.dfy`: how the typed input becomes a request, and the
  "Suggested Combinations" cross product.

The network is a parameter, `fetch: Request -> Reply`. A service's reply is
therefore an input, and asking the same service the same question twice
gets the same answer. The `API_NINJAS_KEY` environment variable is the
parameter `ninjasKey`.

## Model

| member | source | states |
|---|---|---|
| Providers.Names | backend/main.py:56-72 | the configured services are "datamuse" then "ninjas", in that order |
| Providers.BuildRequest | backend/main.py:56-67 | datamuse gets the word as `ml` and `rel_syn`, `max` 15, no headers; ninjas gets only `word` plus the `X-Api-Key` header; each goes to its configured URL |
| Providers.BuildRequestInjective | backend/main.py:59-67 | the word queried is recoverable from the request: different words make different requests |
| Providers.Candidates | backend/main.py:109-118 | reading candidates fails exactly when the body is not JSON or ninjas is sent a JSON array (no `get` on a list) |
| Providers.Words | backend/main.py:114 | the datamuse candidates are exactly the `word` values of the items that have one; items without the key are skipped |
| Providers.FilterSingle | backend/main.py:114-118 | the filter never lengthens the list, and every survivor splits into exactly one token |
| Providers.FilterSingleMembers | backend/main.py:114-118 | a candidate survives the filter exactly when it is one whitespace token |
| Providers.Query | backend/main.py:106-130 | a query succeeds exactly on a 2xx reply (`IsSuccess`, httpx's `is_success`) whose body the service's rule can read; a non-2xx status fails with "HTTP <status>"; every failure is tagged with the service's name; all returned synonyms are single tokens |
| Providers.QueryAsWritten | backend/main.py:92-130 | as written, a non-2xx status error is caught by the same `try` and re-raised as "Unexpected error: <name>: HTTP <status>"; every other reply gives the same result as `Query` |
| Providers.StatusErrorRewrapped | backend/main.py:106-130 | for every non-2xx status (500 from datamuse, say) the error as written is "Unexpected error: <name>: HTTP <status>", not the corrected "HTTP <status>"; the two messages differ |
| Providers.DatamuseExtraction | backend/main.py:113-115 | a successful Datamuse reply yields exactly the one-token `word` values of its items and is never an error |
| Providers.NinjasExtraction | backend/main.py:116-118 | a successful Ninjas reply yields exactly the one-token members of `synonyms`; a missing key yields `[]`, which is not an error |
| Providers.PhrasesDropped | backend/main.py:114-118 | a two-word phrase such as "well being" never survives the filter; a one-word candidate survives exactly when it was offered |
| Providers.EmptyDropped | backend/main.py:114-118 | the empty string never survives the filter |
| Text.SplitTokens | backend/main.py:115 | `split()`, modelled by `Text.Split`, yields only non-empty tokens without whitespace |
| Text.SplitEmpty | frontend/app.py:218-219 | `split()` is empty exactly when the text is all whitespace |
| Text.SingleToken | backend/main.py:115 | `len(s.split()) == 1` holds exactly when `s.strip()` is non-empty with no whitespace inside; the token is then `s.strip()` |
| Text.SplitPair | frontend/app.py:218-220 | two words joined by a space split into exactly those two words |
| Text.Strip | backend/main.py:154 | `strip()` returns the slice of the text that lies between a whitespace-only prefix and a whitespace-only suffix, and it has no whitespace at either end |
| Text.Lower | backend/main.py:154 | `lower()` maps each character on its own, keeping the length |
| Text.Decimal | backend/main.py:107 | `str(status)` is a non-empty string of decimal digits with no leading zero unless the status is 0 |
| Text.DecimalRoundTrip | backend/main.py:107 | the status can be read back from its decimal text |
| Text.DecimalInjective | backend/main.py:107 | different statuses give different "HTTP <status>" texts |
| Text.JoinContains | backend/main.py:195 | every error appears in `", ".join(errors)` |
| Aggregator.Normalise | backend/main.py:154 | the normalised word is the part of the word between a whitespace-only prefix and a whitespace-only suffix, lower-cased character by character; it has no surrounding whitespace and no ASCII capitals |
| Aggregator.NormaliseIdempotent | backend/main.py:154-199 | normalising the returned `word` again changes nothing |
| Aggregator.NormalisedLookup | backend/main.py:154-169 | letter case and surrounding whitespace of the word do not change the primary walk |
| Aggregator.Outcomes | backend/main.py:160-162 | the `i`-th outcome is the `i`-th configured service's answer to the word it is given, tagged with that service's name; `PrimaryWalk` and `SecondWalk` give it the normalised word |
| Aggregator.GetSynonymsFromApi | backend/main.py:92-130 | one query sends the service the request built for the word; every failure carries the service's name, and a success holds only single tokens and happens exactly on a 2xx reply whose body the service's rule can read |
| Aggregator.CollectKeeps | backend/main.py:160-186 | a walk of `Step`s, one per loop iteration, only ever adds: the starting set, `sources` and `errors` are kept as they were, and each service adds at most one name |
| Aggregator.CollectFound | backend/main.py:160-169 | the gathered set is the starting set plus the union of every successful service's list; a failure does not end the walk |
| Aggregator.PrimaryFound | backend/main.py:159-169 | the primary set is exactly the union of the successful services' lists for the normalised word |
| Aggregator.SecondFound | backend/main.py:173-186 | the second word's set is exactly the union of its successful services' lists, and starts empty |
| Aggregator.OfferedByServices | backend/main.py:160-165 | a synonym is offered by the walk's outcomes exactly when some configured service, asked for the word, answers with it |
| Aggregator.CollectErrors | backend/main.py:166-186 | every failure's text is appended to `errors`, in query order, after what was there |
| Aggregator.FailuresMembers | backend/main.py:166-167 | an error text is recorded exactly when some service failed with it |
| Aggregator.FinalErrors | backend/main.py:166-195 | the final `errors` are the primary word's failures followed by the second word's |
| Aggregator.FailuresAll | backend/main.py:166-167 | when every outcome is a failure, there is one error text per service queried |
| Aggregator.AllFailing | backend/main.py:160-169 | when every service fails, nothing is found and every service leaves one error |
| Aggregator.ContributingIndices | backend/main.py:163-165 | the contributing services' positions, increasing, and all of them |
| Aggregator.PrimarySources | backend/main.py:163-165 | the primary walk appends each contributing service's name, in query order, and no other |
| Aggregator.PrimarySourcesInOrder | backend/main.py:160-165 | the primary `sources` are configured names in configuration order, without duplicates |
| Aggregator.ConfiguredNamesAt | backend/main.py:160-165 | the names of configured services taken at increasing positions are configured names in configuration order |
| Aggregator.SecondSources | backend/main.py:180-183 | the second walk keeps the earlier `sources`, adds no duplicate, and ends with exactly the earlier names plus the contributing ones |
| Aggregator.SecondNamed | backend/main.py:177-183 | the second walk over the configured services adds only configured names |
| Aggregator.FinalSources | backend/main.py:165-202 | the final `sources` extend the primary ones, hold only configured names, and have no duplicates |
| Aggregator.PrimaryPass | backend/main.py:159-169 | the primary loop ends in exactly the state of the walk `Collect` over the services' outcomes, each name appended when its service contributes |
| Aggregator.SecondPass | backend/main.py:173-186 | the second loop starts from a fresh set and the primary `sources` and `errors`, and ends in exactly the state of the walk that appends only new names |
| Aggregator.TakeSome | backend/main.py:189-200 | `list(s)[:n]` gives `min(len(s), n)` distinct members of `s` |
| Aggregator.NotFoundMessageMentions | backend/main.py:193-195 | the message `NotFoundMessage` builds contains the word and every error; with no errors it is exactly "Not enough synonyms found for '<word>'" |
| Aggregator.GetCombinedSynonyms | backend/main.py:132-204 | the lookup fails with `NoSynonymsFound` exactly when the untruncated primary set is smaller than `min_synonyms`. The check comes after the second pass, so the message holds both passes' errors. On success it returns the normalised word, the final `sources` and a selection of each set; second-word synonyms appear exactly when a truthy second word found some |
| Aggregator.ToHttpException | backend/main.py:243-249 | `NoSynonymsFound` gives 404 with its text and `ExternalAPIError` gives 503 with its text. Anything else gives 500 "An unexpected error occurred" |
| Aggregator.GetSynonyms | backend/main.py:231-249 | the endpoint fails exactly when the primary set is too small, always with 404 and the `NoSynonymsFound` message as detail (the normalised word and the errors of both passes). On success it answers with the lookup's payload: the normalised word, the final `sources`, at most `max_synonyms` distinct primary synonyms, and second-word synonyms exactly when a truthy second word found some |
| Frontend.Submit | frontend/app.py:214-248 | the text is rejected exactly when it is empty, with "Please enter at least one word"; a handler error carries the generic message |
| Frontend.SubmitLooksUp | frontend/app.py:214-248 | a request is made exactly when the text has a non-whitespace character |
| Frontend.SubmitTokens | frontend/app.py:218-225 | the word and second word are the first two tokens, unchanged by `strip()`, so non-empty and free of whitespace; later tokens are ignored |
| Frontend.SubmitWord | frontend/app.py:218-220 | a single word is looked up with no second word |
| Frontend.SubmitPhrase | frontend/app.py:218-220 | "fast car" looks up "fast" with second word "car" |
| Frontend.Pairs | frontend/app.py:169-173 | the nested comprehension has `len(xs) * len(ys)` entries |
| Frontend.PairsAt | frontend/app.py:169-173 | entry `i * len(ys) + j` is `xs[i] + " " + ys[j]`: the primary list is the outer loop |
| Frontend.PairsMembers | frontend/app.py:169-173 | the entries are exactly the strings "x y" with `x` in `xs` and `y` in `ys` |
| Frontend.Suggestions | frontend/app.py:169-173 | there are `min(3, len(first)) * min(3, len(second))` suggestions |
| Frontend.SuggestionsCount | frontend/app.py:171-172 | there are never more than nine suggestions |
| Frontend.SuggestionsAt | frontend/app.py:169-173 | suggestion `i * n + j` pairs the `i`-th of the first three synonyms with the `j`-th of the second word's first three |
| Frontend.SuggestionsMembers | frontend/app.py:169-173 | a string is a suggestion exactly when it is "x y" with `x` among the first three synonyms and `y` among the second word's first three |

## Left out

- The network itself is not modelled. That covers the httpx client, the 5.0-second timeout, connection handling and the back end called from the front end (frontend/app.py:77-126). A service's answer is a `Reply` produced by the `fetch` parameter, and `fetch` is a function, so a service answers the same request the same way in both passes.
- The model assumes every exception class named in the `except` clauses of `get_synonyms_from_api` exists. If `httpx.TimeoutError` does not exist in the httpx version used, evaluating that clause raises instead of matching. Every exception raised in the `try` at backend/main.py:92-130, the status error included, would then become an `AttributeError`. `get_combined_synonyms` catches only `ExternalAPIError`, so that error would escape and the endpoint would answer 500 "An unexpected error occurred" (backend/main.py:247-249). One failing service would then sink the whole request, and the tolerance of partial failure the model proves would not hold.
- Python's own exception texts are reduced to a `cause` string carried by the reply. The model has one fixed text: the error from calling `get` on a list.
- Only two JSON body shapes are modelled: an array of objects with an optional `word`, and an object with an optional `synonyms` array. Other shapes, such as non-string words or nested values, are not.
- The `KeyError` branch at backend/main.py:119-120 is not modelled, because the extraction guards against missing keys and cannot raise it. Had it been raised, the outer `except Exception` would re-wrap it, as in the Findings.
- Providers.Candidates: datamuse given a JSON object only checks the key "synonyms", because that is the only key the modelled object has.
- Text.Lower: lower-cases ASCII letters only; Unicode case mapping is not modelled.
- Python's set iteration order is left open. `Aggregator.TakeSome` picks members with `:|`, and its contract states only distinctness, membership and the length `min(len(s), n)`.
- Aggregator.FinalSources: the final `sources` are not stated to be in configuration order, because they are not in general. If only ninjas answers the primary word and only datamuse answers the second, the result is `["ninjas", "datamuse"]`.
- Aggregator.GetSynonyms: requires a request that meets the `WordRequest` field bounds. FastAPI answers requests that break them with 422 before the handler runs, and pydantic itself is not modelled.
- Aggregator.GetCombinedSynonyms: `max_synonyms` is a `nat`. The endpoint only passes values from 1 to 10, and a negative Python slice bound is not modelled.
- Aggregator.GetCombinedSynonyms: the lookup is built on the corrected `Providers.Query`, not on `Providers.QueryAsWritten`, as the Findings row explains. For a non-2xx reply the model's `errors` entry reads "<name>: HTTP <status>", where the program records "<name>: Unexpected error: <name>: HTTP <status>". The `NoSynonymsFound` message and the 404 detail quote those entries, so they differ in the same way. Every other reply, and everything the walks state about the synonyms and `sources`, is the same under both.
- When every service fails, including for the second word, the code raises `NoSynonymsFound` and answers 404, not 503, because `get_combined_synonyms` catches every `ExternalAPIError`. The model follows the code.
- Not modelled: the `/health` route, CORS, the FastAPI app, uvicorn, logging, `load_dotenv`, the response timestamp (`datetime.now()`) and the unused `self.cache`. These are framework plumbing, environment or clock.
- Not modelled: Streamlit rendering, the form widgets, the session-state search history and the display of results. These are UI.
- `backend/test_api.py` and `backend/test_api_ninjas.py` are network smoke tests and are not part of this model.

## Findings

| source | as written | input that shows it | evidently intended | confidence | as-written member | corrected member |
|---|---|---|---|---|---|---|
| backend/main.py:106-107, 129-130 | the `ExternalAPIError` for a non-2xx status is raised inside the `try` that starts at line 92, so `except Exception` catches it and raises a new error whose message is "Unexpected error: " plus the first error's full text | datamuse answers HTTP 500: the recorded error is "datamuse: Unexpected error: datamuse: HTTP 500" | the error reads "datamuse: HTTP 500", with the reason "HTTP <status>" | not executed | Providers.QueryAsWritten, Providers.StatusErrorRewrapped | Providers.Query |
