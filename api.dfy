/**
 * A model of `ApiClient`, the HTTP client of a GETTR scraper (lib/api.py).
 *
 * The client issues GET requests against `base URL + path`, unwraps one field
 * of the JSON body, retries a failed attempt after sleeping `4^tries` seconds,
 * and offers offset-based pagination on top of that.
 *
 * The network is an oracle: `reply(i)` is the response the transport gives to
 * the i-th attempt of one `get` call.  Requests sent and sleeps requested are
 * returned as logs instead of being performed.
 */
module Api {

  datatype Option<T> = None | Some(value: T)

  /** A value carried in a JSON body or a query string (its shape, not its encoding);
      a JSON number is an `Int` when it is integral and a `Num` otherwise. */
  datatype Value =
    | Null
    | Bool(b: bool)
    | Int(i: int)
    | Num(r: real)
    | Str(s: string)
    | List(items: seq<Value>)
    | Dict(entries: map<string, Value>)

  /** One HTTP GET as the transport receives it: the full URL and the query parameters. */
  datatype Request = Request(url: string, params: map<string, Value>)

  /** The transport's answer to one attempt: status code and JSON body (a JSON object). */
  datatype Response = Response(status: int, body: map<string, Value>)

  /** How a `get` call ends: with the value stored under the key, or by raising. */
  datatype Outcome = Returned(value: Value) | Exhausted

  /** What one pull on the pagination sequence gives: a page, the propagated error,
      or nothing because an earlier error already ended the sequence. */
  datatype Step = Item(value: Value) | Raised | Finished

  const DefaultBaseUrl: string := "https://api.gettr.com"

  /** The base URL the constructor keeps: its argument when that is truthy
      (present and non-empty), the public GETTR endpoint otherwise. */
  function BaseUrl(arg: Option<string>): (r: string)
    ensures r != ""
    ensures arg.Some? && arg.value != "" ==> r == arg.value
    ensures arg.None? || arg.value == "" ==> r == DefaultBaseUrl
  {
    match arg
    case None => DefaultBaseUrl
    case Some(s) => if |s| == 0 then DefaultBaseUrl else s
  }

  /** An attempt fails when the status is not 200 or the body lacks the key;
      both kinds take the same warn-sleep-retry path. */
  predicate IsFailure(resp: Response, key: string)
  {
    resp.status != 200 || key !in resp.body
  }

  /** The first `n` attempts all fail. */
  ghost predicate AllFail(reply: nat -> Response, key: string, n: int)
  {
    forall i: nat :: i < n ==> IsFailure(reply(i), key)
  }

  function Pow4(n: nat): (r: nat)
    ensures r >= 1
  {
    if n == 0 then 1 else 4 * Pow4(n - 1)
  }

  /** The sleeps requested after `n` failed attempts: `[4^1, 4^2, ..., 4^n]`. */
  function Backoffs(n: nat): (r: seq<nat>)
    ensures |r| == n
    ensures forall i :: 0 <= i < n ==> r[i] == Pow4(i + 1)
  {
    if n == 0 then [] else Backoffs(n - 1) + [Pow4(n)]
  }

  /** Sum of a list of delays. */
  function Total(s: seq<nat>): nat
  {
    if s == [] then 0 else Total(s[..|s| - 1]) + s[|s| - 1]
  }

  /** The time a call spends asleep after `n` failures is `(4^(n+1) - 4) / 3`:
      unbounded in `n`, with no cap and no jitter. */
  lemma {:induction false} BackoffsTotal(n: nat)
    ensures 3 * Total(Backoffs(n)) + 4 == Pow4(n + 1)
  {
    if n > 0 {
      BackoffsTotal(n - 1);
      var s := Backoffs(n);
      assert s[..|s| - 1] == Backoffs(n - 1);
    }
  }

  /** The characterization of one `get` call with `retries` allowed attempts:
      every attempt sends the same request; the call returns at the first
      successful attempt, sleeping `4^j` after each earlier failure j, or
      raises after `max(retries, 0)` failures, having slept after each of
      them, the last one included. */
  ghost predicate IsGetRun(target: string, params: map<string, Value>, retries: int, key: string,
                           reply: nat -> Response, outcome: Outcome, log: seq<Request>, sleeps: seq<nat>)
  {
    && (forall i :: 0 <= i < |log| ==> log[i] == Request(target, params))
    && (match outcome
        case Returned(v) =>
          && 1 <= |log| <= retries
          && AllFail(reply, key, |log| - 1)
          && !IsFailure(reply(|log| - 1), key)
          && v == reply(|log| - 1).body[key]
          && sleeps == Backoffs(|log| - 1)
        case Exhausted =>
          && |log| == (if retries < 0 then 0 else retries)
          && AllFail(reply, key, |log|)
          && sleeps == Backoffs(|log|))
  }

  /** The call depends on the attempts only through their classification and
      the successful bodies' values: a non-200 status and a missing key are
      indistinguishable, and the characterization determines the run. */
  lemma OnlyClassificationMatters(target: string, params: map<string, Value>, retries: int, key: string,
                                  r1: nat -> Response, o1: Outcome, l1: seq<Request>, s1: seq<nat>,
                                  r2: nat -> Response, o2: Outcome, l2: seq<Request>, s2: seq<nat>)
    requires forall i: nat :: IsFailure(r1(i), key) == IsFailure(r2(i), key)
    requires forall i: nat :: !IsFailure(r1(i), key) ==> key in r2(i).body && r1(i).body[key] == r2(i).body[key]
    requires IsGetRun(target, params, retries, key, r1, o1, l1, s1)
    requires IsGetRun(target, params, retries, key, r2, o2, l2, s2)
    ensures o1 == o2 && l1 == l2 && s1 == s2
  {
  }

  /** If attempt `k` (0-based) is the first success within the allowance, the
      call returns that body's value unchanged after exactly `k + 1` attempts
      and the sleeps `4^1 ... 4^k`. */
  lemma FirstSuccessReturns(target: string, params: map<string, Value>, retries: int, key: string,
                            reply: nat -> Response, outcome: Outcome, log: seq<Request>, sleeps: seq<nat>, k: nat)
    requires IsGetRun(target, params, retries, key, reply, outcome, log, sleeps)
    requires k < retries && AllFail(reply, key, k) && !IsFailure(reply(k), key)
    ensures outcome == Returned(reply(k).body[key])
    ensures |log| == k + 1 && sleeps == Backoffs(k)
  {
  }

  /** When every allowed attempt fails, the call raises after `retries`
      attempts and the sleeps `4^1 ... 4^retries`, one per failure. */
  lemma AllFailuresExhaust(target: string, params: map<string, Value>, retries: int, key: string,
                           reply: nat -> Response, outcome: Outcome, log: seq<Request>, sleeps: seq<nat>)
    requires IsGetRun(target, params, retries, key, reply, outcome, log, sleeps)
    requires AllFail(reply, key, retries)
    ensures outcome == Exhausted
    ensures |log| == (if retries < 0 then 0 else retries) && sleeps == Backoffs(|log|)
  {
  }

  /** With no attempt allowed, nothing is sent, nothing is slept and the call raises. */
  lemma NoRetriesNoRequest(target: string, params: map<string, Value>, retries: int, key: string,
                           reply: nat -> Response, outcome: Outcome, log: seq<Request>, sleeps: seq<nat>)
    requires IsGetRun(target, params, retries, key, reply, outcome, log, sleeps)
    requires retries <= 0
    ensures outcome == Exhausted && log == [] && sleeps == []
  {
  }

  /** The call returns a value exactly when some allowed attempt succeeds. */
  lemma ReturnsIffSomeAttemptSucceeds(target: string, params: map<string, Value>, retries: int, key: string,
                                      reply: nat -> Response, outcome: Outcome, log: seq<Request>, sleeps: seq<nat>)
    requires IsGetRun(target, params, retries, key, reply, outcome, log, sleeps)
    ensures outcome.Returned? <==> exists i: nat :: i < retries && !IsFailure(reply(i), key)
  {
    if outcome.Returned? {
      var i: nat := |log| - 1;
      assert i < retries && !IsFailure(reply(i), key);
    }
  }

  /** The oracle of the attempts that come after the first `n` ones. */
  function Shift(f: nat -> Response, n: nat): nat -> Response
  {
    (i: nat) => f(n + i)
  }

  /** The offset carried by the request of step `n` (0-based) of a pagination. */
  function PageOffset(start: int, step: int, n: nat): int
  {
    start + n * step
  }

  /** The params dict after `n` steps of a pagination, when nothing but the
      pagination writes it: each step overwrites the offset key in place. */
  function ParamsAfter(initial: map<string, Value>, offsetParam: string, start: int, step: int, n: nat): map<string, Value>
  {
    if n == 0 then initial
    else ParamsAfter(initial, offsetParam, start, step, n - 1)[offsetParam := Int(PageOffset(start, step, n - 1))]
  }

  /** After step `n` (1-based) the dict holds the caller's entries unchanged,
      except that the offset key, added or overwritten, is `start + (n-1)*step`. */
  lemma {:induction false} ParamsAfterSteps(initial: map<string, Value>, offsetParam: string, start: int, step: int, n: nat)
    requires n >= 1
    ensures ParamsAfter(initial, offsetParam, start, step, n) == initial[offsetParam := Int(start + (n - 1) * step)]
    ensures forall k :: k != offsetParam ==>
      (k in ParamsAfter(initial, offsetParam, start, step, n) <==> k in initial)
    ensures forall k :: k != offsetParam && k in initial ==>
      ParamsAfter(initial, offsetParam, start, step, n)[k] == initial[k]
  {
    if n > 1 {
      ParamsAfterSteps(initial, offsetParam, start, step, n - 1);
      var before := initial[offsetParam := Int(start + (n - 2) * step)];
      assert before[offsetParam := Int(start + (n - 1) * step)] == initial[offsetParam := Int(start + (n - 1) * step)];
    }
  }

  /** `ApiClient`: holds the base URL, immutable after construction. */
  class ApiClient {
    const apiBaseUrl: string

    constructor (apiBaseUrl: Option<string>)
      ensures this.apiBaseUrl == BaseUrl(apiBaseUrl)
    {
      this.apiBaseUrl := BaseUrl(apiBaseUrl);
    }

    /** `get`: up to `retries` attempts at `apiBaseUrl + url`; `reply(i)` is the
        transport's answer to attempt i.  Returns the outcome, the requests
        sent and the sleeps requested, in order. */
    method Get(url: string, params: map<string, Value>, retries: int, key: string, reply: nat -> Response)
      returns (outcome: Outcome, log: seq<Request>, sleeps: seq<nat>)
      ensures IsGetRun(apiBaseUrl + url, params, retries, key, reply, outcome, log, sleeps)
    {
      var tries: nat := 0;
      log, sleeps := [], [];
      while tries < retries
        invariant retries >= 0 ==> tries <= retries
        invariant retries < 0 ==> tries == 0
        invariant |log| == tries
        invariant forall i :: 0 <= i < tries ==> log[i] == Request(apiBaseUrl + url, params)
        invariant AllFail(reply, key, tries)
        invariant sleeps == Backoffs(tries)
        decreases retries - tries
      {
        var resp := reply(tries);
        log := log + [Request(apiBaseUrl + url, params)];
        tries := tries + 1;
        if IsFailure(resp, key) {
          sleeps := sleeps + [Pow4(tries)];
          continue;
        }
        return Returned(resp.body[key]), log, sleeps;
      }
      outcome := Exhausted;
    }
  }

  /** A Python dict object: the caller's params, which the pagination mutates in place. */
  class Params {
    var entries: map<string, Value>

    constructor (entries: map<string, Value>)
      ensures this.entries == entries
    {
      this.entries := entries;
    }
  }

  /** The generator that `get_paginated` returns: a cursor from an
      `itertools.count(offsetStart, offsetStep)`, the params dict it reuses on
      every step, and the logs of everything its `get` calls did.
      `replies(n)` is the transport's answer to the n-th request it sends. */
  class Paginator {
    const client: ApiClient
    const url: string
    const retries: int
    const key: string
    const offsetParam: string
    const offsetStart: int
    const offsetStep: int
    const params: Params
    const replies: nat -> Response

    var cursor: int
    var calls: nat
    var done: bool
    var requests: seq<Request>
    var sleeps: seq<nat>

    /** The cursor is the offset of the next step's request. */
    ghost predicate Valid()
      reads this
    {
      cursor == PageOffset(offsetStart, offsetStep, calls)
    }

    /** `get_paginated(url, params=..., retries=..., key=..., offset_param=...,
        offset_start=..., offset_step=...)`; `params == null` means that no
        params were supplied, and a new empty dict is used. */
    constructor (client: ApiClient, url: string, params: Params?, retries: int, key: string,
                 offsetParam: string, offsetStart: int, offsetStep: int, replies: nat -> Response)
      ensures Valid()
      ensures this.client == client && this.url == url && this.retries == retries && this.key == key
      ensures this.offsetParam == offsetParam && this.offsetStart == offsetStart && this.offsetStep == offsetStep
      ensures this.replies == replies
      ensures params != null ==> this.params == params
      ensures params == null ==> fresh(this.params) && this.params.entries == map[]
      ensures cursor == offsetStart && calls == 0 && !done && requests == [] && sleeps == []
    {
      this.client, this.url, this.retries, this.key := client, url, retries, key;
      this.offsetParam, this.offsetStart, this.offsetStep := offsetParam, offsetStart, offsetStep;
      this.replies := replies;
      if params == null {
        this.params := new Params(map[]);
      } else {
        this.params := params;
      }
      cursor, calls, done, requests, sleeps := offsetStart, 0, false, [], [];
    }

    /** One pull: write the cursor under the offset key of the shared dict,
        make exactly one `get` call with it, yield its value, advance the
        cursor.  An exhausted call propagates and ends the sequence. */
    method Next() returns (step: Step)
      requires Valid()
      modifies this, params
      ensures Valid()
      ensures old(done) ==> step == Finished && unchanged(this, params)
      ensures !old(done) ==>
        && step != Finished
        && params.entries == old(params.entries)[offsetParam := Int(old(cursor))]
        && calls == old(calls) + 1
        && cursor == old(cursor) + offsetStep
        && done == step.Raised?
        && old(|requests|) <= |requests| && requests[..old(|requests|)] == old(requests)
        && old(|sleeps|) <= |sleeps| && sleeps[..old(|sleeps|)] == old(sleeps)
        && IsGetRun(client.apiBaseUrl + url, params.entries, retries, key, Shift(replies, old(|requests|)),
                    if step.Item? then Returned(step.value) else Exhausted,
                    requests[old(|requests|)..], sleeps[old(|sleeps|)..])
    {
      if done {
        return Finished;
      }
      params.entries := params.entries[offsetParam := Int(cursor)];
      var outcome, log, waits := client.Get(url, params.entries, retries, key, Shift(replies, |requests|));
      assert (requests + log)[|requests|..] == log;
      assert (sleeps + waits)[|sleeps|..] == waits;
      requests := requests + log;
      sleeps := sleeps + waits;
      calls := calls + 1;
      cursor := cursor + offsetStep;
      if outcome.Returned? {
        step := Item(outcome.value);
      } else {
        step := Raised;
        done := true;
      }
    }
  }

  /** A caller that takes up to `n` pages from a fresh pagination, as
      `itertools.islice(client.get_paginated(...), n)` does, and stops early
      when a `get` call raises.  No one else writes the params dict meanwhile,
      so after it the dict is the closed form of `ParamsAfterSteps`. */
  method TakePages(p: Paginator, n: nat) returns (items: seq<Value>)
    requires p.Valid() && p.calls == 0 && !p.done
    modifies p, p.params
    ensures p.Valid()
    ensures |items| <= n && (!p.done ==> |items| == n)
    ensures p.calls == |items| + (if p.done then 1 else 0)
    ensures p.params.entries == ParamsAfter(old(p.params.entries), p.offsetParam, p.offsetStart, p.offsetStep, p.calls)
    ensures p.calls >= 1 ==>
      p.params.entries == old(p.params.entries)[p.offsetParam := Int(p.offsetStart + (p.calls - 1) * p.offsetStep)]
  {
    items := [];
    ghost var initial := p.params.entries;
    while |items| < n && !p.done
      invariant p.Valid()
      invariant |items| <= n
      invariant p.calls == |items| + (if p.done then 1 else 0)
      invariant p.params.entries == ParamsAfter(initial, p.offsetParam, p.offsetStart, p.offsetStep, p.calls)
      decreases n - |items|, if p.done then 0 else 1
    {
      var step := p.Next();
      if step.Item? {
        items := items + [step.value];
      }
    }
    if p.calls >= 1 {
      ParamsAfterSteps(initial, p.offsetParam, p.offsetStart, p.offsetStep, p.calls);
    }
  }
}
