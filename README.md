# AI Resume Screener — a Dafny model of its deterministic core

The screener takes a résumé as a PDF and a job description. It extracts the
résumé's text, asks a local language model (llama3.2:3b via Ollama) to score
the fit as JSON, and returns that JSON. The repository holds two versions of
this service:

- `main.py` is the FastAPI service. It collapses whitespace in the résumé and
  cuts it to 4000 characters (`normalize_text`). It builds a cache key
  `"resume:" + sha256(resume + jd)` (`cache_key`). It then runs a cache-aside
  step against Valkey/Redis (`screen_with_llm`): a hit returns the stored record
  tagged `"cache": "HIT"`; a miss asks the model, tags the answer
  `"cache": "MISS"` and stores it with `CACHE_TTL`; a failure returns
  `{"error": msg}`.
- `backend/main.py` is the older Flask service without a cache. It cuts the
  raw text to 6000 characters and sends it to the model. Any failure becomes a
  fixed fallback record. The handler checks its inputs in a fixed order.

This model covers the string handling, the key, the cache-aside state machine
and the ordered checks of both handlers. The foreign pieces are given from
outside:

- SHA-256 is a function to 64 lower-case hex digits (`Fingerprint.Sha256`).
- `json.loads` and `json.dumps` are a pair of functions (`Json.Codec`).
- PyMuPDF is a function from bytes to page texts or an error (`Pdf.Reader`).
- The Ollama chat call is a function from a prompt to a reply or an error.
  In `main.py` it sits behind a `ModelClient` object that logs every prompt.
  Its answer may depend on how many calls came before.

Files:

- `json.dfy`: decoded JSON values, the `Outcome` of a Python call, the codec,
  and dict item assignment.
- `text.dfy`: `str.split`, `" ".join`, the normaliser, `str.strip`, page
  concatenation, `str.endswith`.
- `fingerprint.dfy`: the cache key.
- `llm.dfy`: prompts, chat replies, and decoding the reply.
- `pdf.dfy`: the PDF reader.
- `service.dfy`: `main.py`. It has the classes `Valkey`, `ModelClient` and
  `Api`, plus `ScreenStep`, the pure specification of one `screen_with_llm`
  call.
- `legacy.dfy`: `backend/main.py`.

The model follows what the code does, including where it departs from the
behaviour one might expect of such a service:

- Cache failures do not degrade to a miss. A failed read escapes
  `screen_with_llm`. A failed write turns the answer into `{"error": msg}`.
- Scores are not clamped to 0..100.
- The job description is not normalised.
- `main.py` answers a model failure with `{"error": msg}` and status 200, not
  with a full degraded record.
- A PDF that cannot be opened is not a 400. In `main.py` the exception escapes
  the handler, and in `backend/main.py` it becomes a 500.
- `backend/main.py` cuts the raw extracted text at 6000 characters, not the
  whitespace-collapsed text.

## Model

| member | source | states |
|---|---|---|
| `Text.IsWhitespace` | main.py:76 | `str.split()` separates at space, tab, newline and carriage return, and never at a printable ASCII character other than the space |
| `Text.Split` | main.py:76 | `text.split()` yields only non-empty words that contain no whitespace |
| `Text.SplitWord` | main.py:76 | a run of non-whitespace characters splits into itself as the single word |
| `Text.SplitAtWhitespace` | main.py:76 | every whitespace character separates: the words of `a + c + b` are the words of `a` followed by the words of `b`; with `SplitWord` and `"".split() == []` this fixes the words as the maximal non-whitespace runs, in order |
| `Text.SplitEmptyIff` | main.py:76 | the split is empty exactly when the text is all whitespace |
| `Text.JoinSpaced` | main.py:76 | `" ".join(words)` is as long as the words together plus one separator between each two neighbours, and starts with the first word |
| `Text.JoinShape` | main.py:76 | `" ".join` of words has no whitespace but single spaces, no double space, no leading or trailing space, and is empty only for no words |
| `Text.SplitJoin` | main.py:76 | round trip: splitting the space-joined words gives back the same words |
| `Text.Collapse` | main.py:76 | `" ".join(text.split())` has only single spaces as whitespace, no leading or trailing space, and is empty exactly for whitespace-only text |
| `Text.CollapseIdempotent` | main.py:76 | collapsing whitespace twice equals collapsing once |
| `Text.Normalize` | main.py:75-76 | output is at most 4000 characters; it has only `' '` as whitespace, no two adjacent spaces and no leading space; it is a prefix of the collapsed text; it is `""` exactly for whitespace-only input; it is the whole collapsed text, without trailing space, when that fits in 4000 characters, and exactly its first 4000 characters otherwise |
| `Text.NormalizeIdempotentWhenShort` | main.py:76 | normalising twice equals normalising once when the collapsed text fits the budget (a cut at 4000 can leave a trailing space, so not in general) |
| `Text.Take` | backend/main.py:33 | the slice `s[:n]` is a prefix of `s` of length `min(|s|, n)` |
| `Text.TrimStart` | main.py:142 | `lstrip()` removes exactly the leading whitespace: what it removes is all whitespace, and what is left is `""` for whitespace-only text and otherwise starts with non-whitespace |
| `Text.TrimEnd` | main.py:142 | `rstrip()` removes exactly the trailing whitespace: what it removes is all whitespace, and what is left is `""` for whitespace-only text and otherwise ends with non-whitespace |
| `Text.Strip` | main.py:142 | `strip()` is a slice of the text with only whitespace before and after it; it is empty exactly when the text is all whitespace, and otherwise starts and ends with a non-whitespace character |
| `Text.StripBlankIffNormalizedEmpty` | main.py:142-146 | the blank check rejects exactly the texts that normalise to `""` |
| `Text.Concat` | main.py:73 | `"".join(page texts)` is as long as all page texts together and starts with the first page's text |
| `Text.EndsWith` | main.py:136 | `s.endswith(suffix)` holds exactly when `s` is some string followed by `suffix` |
| `Text.ConcatAppend` | backend/main.py:21-25 | page concatenation keeps document order: the text of `a + b` is the text of `a` followed by the text of `b` |
| `Fingerprint.CacheKey` | main.py:78-79 | the key is `"resume:"` followed by 64 lower-case hex digits, which are the digest of `resume + jd` |
| `Fingerprint.CacheKeyOfConcatenation` | main.py:79 | equal concatenations give equal keys, and two keys are equal exactly when the digests of the concatenations are |
| `Fingerprint.BoundaryNotHashed` | main.py:79 | `("ab", "c")` and `("a", "bc")` get the same key |
| `Json.SetItem` | main.py:90 | `d["cache"] = v` works only on a dict; it sets the key and keeps every other entry; on any other value it raises Python's TypeError message |
| `Llm.ParseReply` | main.py:120 | decoding the chat reply succeeds exactly when the call answered and the content decodes; otherwise it raises the call's or the decoder's message |
| `Service.IsHit` | main.py:87-88 | `if cached:` is a hit exactly when the key is present with a non-empty string; an absent key and a stored `""` are misses |
| `Service.FromCache` | main.py:88-91 | a hit decodes the stored text and overwrites `cache` with `"HIT"`; a decoding error or a stored value that is not a dict escapes |
| `Service.Tagged` | main.py:120-121 | a miss's record is the decoded reply with `cache` set to `"MISS"`; it fails exactly when the call or the decoding fails or the answer is not a dict, and then raises the call's or decoder's message, or Python's TypeError message for item assignment |
| `Service.WriteError` | main.py:122 | `SETEX` fails with the connection error when the connection fails; otherwise it fails exactly when the TTL is not in 1..LLONG_MAX/1000 seconds, with "value is not an integer or out of range" outside the 64-bit range and "invalid expire time" inside it |
| `Service.ScreenStep` | main.py:84-126 | the model is asked at most once, with this résumé and this job description; a read failure escapes and changes nothing; a hit neither asks the model nor writes; a miss asks exactly once; a failed call, decoding, tagging or write (including a `CACHE_TTL` Valkey refuses) gives `{"error": msg}` and leaves the cache alone; a successful miss returns the `"MISS"` record and stores its serialisation under this key with `CACHE_TTL`; no other cache change happens |
| `Service.ExtractText` | main.py:71-73 | the extracted text is the concatenation of the page texts; an unreadable PDF raises |
| `Service.Rejection` | main.py:136-143 | `HTTPException(400, detail)` answers status 400 with the body `{"detail": detail}` and nothing else |
| `Service.Valkey.Get` | main.py:87 | `GET` returns the stored string or None, or raises when reads fail |
| `Service.Valkey.SetEx` | main.py:122 | `SETEX` overwrites the key with the value and TTL; a broken connection, a TTL outside 64 bits, or a TTL not in 1..LLONG_MAX/1000 seconds raises the matching error and changes nothing |
| `Service.ModelClient.Chat` | main.py:112-118 | each chat call appends its prompt to the log and answers as the backend does for that call |
| `Service.Api.ScreenWithLlm` | main.py:84-126 | the result, the new cache contents and the new prompt log are those that `ScreenStep` gives for the old state |
| `Service.Api.Screen` | main.py:131-148 | a name without `.pdf` is rejected with 400 before anything else happens; an unreadable PDF escapes; blank text is rejected with 400; otherwise the normalised résumé and the job description, unchanged, go through `ScreenStep`, whose record comes back with 200 and whose exception escapes |
| `Service.RepeatedRequestHits` | main.py:87-123 | with a healthy cache and a `CACHE_TTL` Valkey accepts, repeating a request whose answer carried a cache tag returns the same record tagged `"HIT"`, with no model call and no write |
| `Service.MissStoresReturnedRecord` | main.py:120-123 | with a `CACHE_TTL` Valkey accepts, after a successful miss the stored entry decodes to exactly the returned record, `"MISS"` tag included, and carries `CACHE_TTL` |
| `Service.NewPromptsCarryRequest` | main.py:112-118 | every prompt one `screen_with_llm` call sends carries that call's résumé and job description |
| `Service.PipelineFeedsNormalizedResume` | main.py:142-148 | after the blank check, every prompt holds the job description as received and a non-empty, collapsed résumé of at most 4000 characters |
| `Legacy.Fallback` | backend/main.py:76-84 | the fallback dict has exactly the seven keys: the exception's message under `error`, candidate `"Unknown"`, score 0, empty skill lists, recommendation `"Error"` and the fixed reasoning `"Failed to process the resume"` |
| `Legacy.ScreenResume` | backend/main.py:30-84 | the model sees the first 6000 characters; a decoded answer is returned unchanged; a failed call or decoding gives the fallback record with the exception's message |
| `Legacy.ScreenResumeSeesOnlyPrefix` | backend/main.py:33 | two résumés with the same first 6000 characters (the whole text when shorter) get the same screening |
| `Legacy.ScreenResumeOutcomes` | backend/main.py:75-84 | the fallback has candidate `"Unknown"`, score 0, empty skill lists, recommendation `"Error"` and the message under `error` |
| `Legacy.NoScoreClamping` | backend/main.py:73-74 | a score of 150 in the model's answer is returned as 150 |
| `Legacy.ExtractTextFromPdf` | backend/main.py:19-25 | the loop `text += page.get_text()` ends with the concatenation of all page texts in order; an unreadable PDF raises |
| `Legacy.Screen` | backend/main.py:89-119 | checks run in order, each with its 400: resume file, job description, `.pdf` name, blank text; an unreadable PDF gives 500 with its message; the status is 200 exactly when all four checks pass, and the body is then the engine's answer |

## Left out

- HTTP routing, CORS, multipart parsing, startup, the print banners, `/health` and the warm-up ping at startup are framework plumbing. The 422 FastAPI gives for a missing form field is framework behaviour too; an empty `job_description` counts as missing there, so `Api.Screen` is never reached with an empty job description. An exception that escapes `main.py`'s handler is shown as `Raised`; the framework's 500 response is not modelled.
- The wording of the prompts, and the model's options (`format="json"`, `num_ctx`), are not modelled. A prompt is represented only by the résumé and job description it carries.
- SHA-256 internals, the UTF-8 encoding before hashing, and the JSON grammar are foreign. The model uses them only through `Sha256`, `Codec` and `RoundTrips`.
- JSON numbers are integers, and dict key order is not kept. Key order affects only the exact text `json.dumps` writes.
- Expiry of cache entries, socket timeouts and connection pooling are time and network behaviour. Only the TTL argument of each write is recorded.
- Service.WriteError: a TTL just under LLONG_MAX/1000 seconds that overflows once Valkey adds the current time in milliseconds is refused by the server; the model has no clock, so it accepts such a TTL.
- Service.Valkey.SetEx: for the same reason it writes every TTL in 1..LLONG_MAX/1000 seconds, including those near the top of that range that Valkey refuses with "invalid expire time" once it adds the current time in milliseconds; the model has no clock.
- `run_in_threadpool`, async scheduling and concurrent requests racing on one key are concurrency and are not modelled.
- A filename of None is not modelled; the filename is always a string.
- Reading `CACHE_TTL` from the environment is start-up configuration; the model takes its value as `Deps.cacheTtl`. A value that `int()` cannot parse stops the service from starting and is not modelled.
- Python's whitespace set is written out in `Text.IsWhitespace` as the characters `str.isspace` accepts. Its contract names the ASCII whitespace characters and excludes every other printable ASCII character.
