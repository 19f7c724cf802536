# ApiClient: retrying GET and offset pagination

This project models `ApiClient` from `lib/api.py`, the HTTP client of a GETTR scraper, in Dafny and proves properties of the model. The client has three jobs:

- It keeps a base URL. This is the constructor argument when that argument is truthy, and `https://api.gettr.com` otherwise.
- `get` sends up to `retries` GET requests to `base URL + path`.
  - An attempt fails when the status is not 200 or the JSON body lacks the result key.
  - After each failure the client sleeps `4^tries` seconds, where `tries` counts the attempts made so far. This includes the last failure, just before it raises.
  - The first success returns `body[key]`.
- `get_paginated` is an infinite generator. On each step it writes the current offset of an `itertools.count(offset_start, offset_step)` into the caller's `params` dict, mutating that dict in place and reusing it on every step. It then yields the result of one `get` call.

Everything is in `api.dfy`, module `Api`. The network is an oracle: `reply(i)` is the transport's response to the i-th attempt of a `get` call. `Paginator.replies(n)` is the response to the n-th request a pagination sends. Requests sent and sleeps requested are returned, or kept, as logs; nothing actually sleeps. `IsGetRun` characterises one `get` call without reference to the loop: which requests it sends, where it stops, what it returns and which sleeps it records. `Get` is proved against it, and the lemmas derive the promised behaviour from it.

The code sleeps after every failure, the last one included, because the sleep comes before the loop condition is tested again. So when every attempt fails, the model records `retries` sleeps, `[4^1, ..., 4^retries]`.

## Model

| member | source | states |
|---|---|---|
| `Api.BaseUrl` | lib/api.py:9-11 | the base URL is the argument when it is present and non-empty, otherwise `https://api.gettr.com`; it is never empty |
| `Api.ApiClient.constructor` | lib/api.py:9-11 | the client keeps `BaseUrl(arg)` as its immutable base URL |
| `Api.ApiClient.Get` | lib/api.py:13-35 | every attempt requests `apiBaseUrl + url` with the given params; the call returns `body[key]` of the first successful attempt after exactly that many attempts and the sleeps `4^1..4^(k-1)`, or raises after `max(retries, 0)` failed attempts with one sleep `4^j` after each failure j |
| `Api.Pow4` | lib/api.py:29 | the definition of `4 ** n`, the delay requested after the n-th attempt fails; its contract adds only that the delay is at least one second |
| `Api.Backoffs` | lib/api.py:24-29 | the sleeps after n failures form a list of length n whose j-th entry (0-based) is `4^(j+1)` |
| `Api.BackoffsTotal` | lib/api.py:19-30 | the total time asleep after n failures is `(4^(n+1) - 4) / 3`, which has no cap |
| `Api.OnlyClassificationMatters` | lib/api.py:22-30 | two transports that classify every attempt alike and agree on the values of successful bodies produce the same outcome, requests and sleeps; a non-200 status and a missing key are indistinguishable, and a run is fully determined by its characterisation |
| `Api.FirstSuccessReturns` | lib/api.py:21-33 | if attempt k (0-based, k < retries) is the first success, the call returns that body's value at the key unchanged, makes exactly k+1 attempts and sleeps `4^1..4^k` |
| `Api.AllFailuresExhaust` | lib/api.py:19-35 | if all allowed attempts fail, the call raises after `retries` attempts, having slept `4^1..4^retries`, one sleep per failure including the last |
| `Api.NoRetriesNoRequest` | lib/api.py:17-35 | with `retries <= 0` no request is sent, nothing is slept and the call raises |
| `Api.ReturnsIffSomeAttemptSucceeds` | lib/api.py:19-35 | the call returns a value if and only if one of the first `retries` attempts succeeds |
| `Api.ParamsAfterSteps` | lib/api.py:46-49 | after step n (1-based) the reused dict holds the caller's entries unchanged, and its offset key, added or overwritten, is `offset_start + (n-1)*offset_step` |
| `Api.Paginator.constructor` | lib/api.py:37-47 | the generator starts with its cursor at `offset_start`, having made no request; it shares the caller's params dict when the caller supplied one, and otherwise uses a fresh empty dict |
| `Api.Paginator.Next` | lib/api.py:46-50 | one pull writes the cursor under the offset key of the shared dict, changing no other entry, and makes exactly one `get` call with that dict and the other arguments unchanged; it yields that call's value or propagates its error and ends the sequence; the cursor advances by `offset_step`; a pull after the error yields nothing and changes nothing |
| `Api.TakePages` | lib/api.py:46-50 | a caller taking up to n pages from a fresh pagination makes one `get` call per page, stops at the first error, and leaves the dict as the caller's entries with the offset key set to `offset_start + (calls-1)*offset_step` |

## Left out

- HTTP transport and JSON decoding (`requests.get`, `resp.json()`; lib/api.py:20, 22, 33) are replaced by an oracle of responses. A body is modelled as a JSON object. The oracle always returns a response, so an exception raised by `requests.get` itself (a connection error or a timeout, lib/api.py:20) is not modelled. In Python such an exception is not caught by the retry loop: it leaves `get` at once, with no sleep and no further attempt, and in `get_paginated` it ends the generator. A 200 response whose body is not JSON, or is a JSON array or string, is not modelled; in Python, `resp.json()` would raise or `in` would test list or substring membership.
- Logging (lib/api.py:23-28, 32) has no effect on behaviour and is not modelled.
- `time.sleep` (lib/api.py:29) is recorded as a requested delay, in seconds, in a log; no time passes.
- Generator suspension and the laziness of `itertools.count` (lib/api.py:46) are modelled as an explicit cursor object with a `Next` method. Nothing is precomputed: each `Next` makes exactly one `get` call.
- Default argument values (`retries=3`, `key="results"`, `offset_param="offset"`, `offset_start=0`, `offset_step=20`) have no counterpart in the model. Callers pass every argument explicitly.
- `params=None` in `get` is modelled as the empty map, which sends the same query.
- In `get_paginated`, params passed positionally, or passed explicitly as `None`, make Python raise a `TypeError`. Neither case is modelled: `Paginator` takes the dict or, by `null`, its absence.
- The Python exception class (`RuntimeError("unable to pull from Gettr")`) is modelled as the `Exhausted` outcome and the `Raised` step. The end of the generator after the error (`StopIteration` on later pulls) is modelled as `Finished`.
- Authentication is mentioned in a docstring but not implemented (lib/api.py:16), so it is not modelled.
- `Api.Paginator.Next`: the contract ties the yielded value to the shared dict as `Next` itself wrote it. When the caller mutates that dict between pulls, the closed form of `ParamsAfterSteps` does not apply; the per-step rule in `Next`'s contract still does.
