/**
  The shared API client (Web/api_client.js): one network request per GET key at a time,
  joined by every caller that asks while it is outstanding.
 */
module ApiClient {
  import opened Common

  // ---------------------------------------------------------------- values

  /** How a fetch ends: it rejects, or the server answers. Bodies are opaque. */
  datatype Fetched = Unreachable | Responded(status: int, body: int)

  /** What every caller of the request receives. */
  datatype Reply = Success(status: int, body: int) | Failure(status: int)

  function Interpret(f: Fetched): Reply {
    match f
    case Unreachable => Failure(0)
    case Responded(status, body) => if 200 <= status < 300 then Success(status, body) else Failure(status)
  }

  /** The connectivity streak: network errors and 5xx count, other refusals do not, success clears it. */
  function NextStreak(streak: nat, f: Fetched): nat {
    match f
    case Unreachable => streak + 1
    case Responded(status, _) => if 200 <= status < 300 then 0 else if status >= 500 then streak + 1 else streak
  }

  datatype Request = Request(isGet: bool, key: string, reply: Option<Reply>)

  /** `requests` lists every network request ever issued, by identity; `inflight` is the dedup map. */
  datatype Client = Client(inflight: map<string, nat>, requests: seq<Request>, failStreak: nat)

  function CacheKey(url: string, verb: string, key: string): string {
    if key != "" then key else url + "|" + if verb != "" then verb else "GET"
  }

  // ---------------------------------------------------------------- what is joined

  /** A key that the caller gives is the key; an absent verb is the GET that it stands for. */
  lemma KeyIsUnderTheCallersControl(url: string, verb: string, key: string)
    ensures key != "" ==> CacheKey(url, verb, key) == key
    ensures CacheKey(url, "", key) == CacheKey(url, "GET", key)
  { }

  /** Without a key of their own, calls by the same verb have the same key only when they have the same URL. */
  lemma DifferentUrlsHaveDifferentKeys(url: string, other: string, verb: string)
    ensures CacheKey(url, verb, "") == CacheKey(other, verb, "") <==> url == other
  {
    var suffix := "|" + if verb != "" then verb else "GET";
    assert CacheKey(url, verb, "") == url + suffix && CacheKey(other, verb, "") == other + suffix by {
      Appended(url, verb);
      Appended(other, verb);
    }
    if url + suffix == other + suffix {
      assert |url| == |other| && (url + suffix)[..|url|] == url && (other + suffix)[..|other|] == other;
    }
  }

  lemma Appended(url: string, verb: string)
    ensures CacheKey(url, verb, "") == url + ("|" + if verb != "" then verb else "GET")
  {
    assert url + "|" + (if verb != "" then verb else "GET") == url + ("|" + if verb != "" then verb else "GET");
  }

  // ---------------------------------------------------------------- steps

  predicate Outstanding(c: Client, id: nat) {
    id < |c.requests| && c.requests[id].reply.None?
  }

  /** The request that a call made now waits for. */
  function Target(c: Client, isGet: bool, key: string): nat {
    if isGet && key in c.inflight then c.inflight[key] else |c.requests|
  }

  function Ask(c: Client, isGet: bool, key: string): Client {
    if isGet && key in c.inflight then c
    else Client(if isGet then c.inflight[key := |c.requests|] else c.inflight,
                c.requests + [Request(isGet, key, None)],
                c.failStreak)
  }

  function Answer(c: Client, id: nat, f: Fetched): Client
    requires Outstanding(c, id)
  {
    var q := c.requests[id];
    Client(if q.isGet && q.key in c.inflight && c.inflight[q.key] == id then c.inflight - {q.key} else c.inflight,
           c.requests[id := q.(reply := Some(Interpret(f)))],
           NextStreak(c.failStreak, f))
  }

  const EMPTY: Client := Client(map[], [], 0)

  // ---------------------------------------------------------------- invariant

  /** The dedup map lists exactly the outstanding GETs, each under its own key. */
  ghost predicate Coherent(c: Client) {
    && (forall k :: k in c.inflight ==>
          Outstanding(c, c.inflight[k]) && c.requests[c.inflight[k]].isGet && c.requests[c.inflight[k]].key == k)
    && (forall id :: 0 <= id < |c.requests| && c.requests[id].isGet && c.requests[id].reply.None? ==>
          c.requests[id].key in c.inflight && c.inflight[c.requests[id].key] == id)
  }

  lemma AskKeepsCoherent(c: Client, isGet: bool, key: string)
    requires Coherent(c)
    ensures Coherent(Ask(c, isGet, key))
    ensures Outstanding(Ask(c, isGet, key), Target(c, isGet, key))
    ensures var q := Ask(c, isGet, key).requests[Target(c, isGet, key)]; q.isGet == isGet && q.key == key
  { }

  lemma AnswerKeepsCoherent(c: Client, id: nat, f: Fetched)
    requires Coherent(c) && Outstanding(c, id)
    ensures Coherent(Answer(c, id, f))
  {
    var d := Answer(c, id, f);
    forall k | k in d.inflight
      ensures Outstanding(d, d.inflight[k]) && d.requests[d.inflight[k]].isGet && d.requests[d.inflight[k]].key == k
    {
      assert k in c.inflight && d.inflight[k] == c.inflight[k];
    }
  }

  /** Answers are final and requests are never forgotten: later states only add to what is known. */
  ghost predicate Extends(c: Client, d: Client) {
    && |c.requests| <= |d.requests|
    && forall id :: 0 <= id < |c.requests| ==>
         && d.requests[id].isGet == c.requests[id].isGet && d.requests[id].key == c.requests[id].key
         && (c.requests[id].reply.Some? ==> d.requests[id].reply == c.requests[id].reply)
  }

  // ---------------------------------------------------------------- runs

  datatype Op = AskOp(isGet: bool, key: string) | AnswerOp(id: nat, fetched: Fetched)

  predicate Possible(c: Client, op: Op) {
    op.AnswerOp? ==> Outstanding(c, op.id)
  }

  function Do(c: Client, op: Op): Client
    requires Possible(c, op)
  {
    match op
    case AskOp(isGet, key) => Ask(c, isGet, key)
    case AnswerOp(id, f) => Answer(c, id, f)
  }

  /** The client after a sequence of operations, if every answer is for an outstanding request. */
  ghost function After(ops: seq<Op>): Option<Client> {
    if ops == [] then Some(EMPTY)
    else
      var before := After(ops[..|ops| - 1]);
      var op := ops[|ops| - 1];
      if before.Some? && Possible(before.value, op) then Some(Do(before.value, op)) else None
  }

  lemma {:induction false} RunsAreCoherent(ops: seq<Op>)
    requires After(ops).Some?
    ensures Coherent(After(ops).value)
  {
    if ops != [] {
      var front, op := ops[..|ops| - 1], ops[|ops| - 1];
      RunsAreCoherent(front);
      match op
      case AskOp(isGet, key) => AskKeepsCoherent(After(front).value, isGet, key);
      case AnswerOp(id, f) => AnswerKeepsCoherent(After(front).value, id, f);
    }
  }

  lemma {:induction false} RunsExtend(ops: seq<Op>, n: nat)
    requires n <= |ops| && After(ops).Some?
    ensures After(ops[..n]).Some? && Extends(After(ops[..n]).value, After(ops).value)
  {
    if n == |ops| {
      assert ops[..n] == ops;
    } else {
      var front := ops[..|ops| - 1];
      RunsExtend(front, n);
      assert front[..n] == ops[..n];
    }
  }

  ghost predicate OutstandingGet(c: Client, id: nat, key: string) {
    Outstanding(c, id) && c.requests[id].isGet && c.requests[id].key == key
  }

  /** Never two outstanding GETs for one key; and once nothing is outstanding the dedup map is empty again. */
  lemma AtMostOneGetPerKey(ops: seq<Op>)
    requires After(ops).Some?
    ensures forall i, j, key ::
              OutstandingGet(After(ops).value, i, key) && OutstandingGet(After(ops).value, j, key) ==> i == j
    ensures (forall id, key :: !OutstandingGet(After(ops).value, id, key)) <==> After(ops).value.inflight == map[]
  {
    RunsAreCoherent(ops);
    var c := After(ops).value;
    if c.inflight != map[] {
      var k :| k in c.inflight;
      assert OutstandingGet(c, c.inflight[k], k);
    }
  }

  /**
    A GET made while one for its key is outstanding issues nothing and waits for that one; the reply of that
    request, once it is there, is the same for whoever looks later.
   */
  lemma JoinedCallersShareOneReply(ops: seq<Op>, n: nat, m: nat, key: string, id: nat)
    requires n <= m <= |ops| && After(ops).Some? && After(ops[..n]).Some? && After(ops[..m]).Some?
    requires OutstandingGet(After(ops[..n]).value, id, key)
    ensures Target(After(ops[..n]).value, true, key) == id
              && Ask(After(ops[..n]).value, true, key) == After(ops[..n]).value
    ensures id < |After(ops[..m]).value.requests| <= |After(ops).value.requests|
    ensures After(ops[..m]).value.requests[id].reply.Some? ==>
              After(ops).value.requests[id].reply == After(ops[..m]).value.requests[id].reply
  {
    RunsExtend(ops[..m], n);
    assert ops[..m][..n] == ops[..n];
    RunsExtend(ops, m);
    RunsAreCoherent(ops[..n]);
  }

  /** A GET that finds nothing outstanding, and every other call, issues exactly one request of its own. */
  lemma OthersIssueTheirOwn(ops: seq<Op>, isGet: bool, key: string)
    requires After(ops).Some? && (isGet ==> forall id :: !OutstandingGet(After(ops).value, id, key))
    ensures var c, d := After(ops).value, Ask(After(ops).value, isGet, key);
            |d.requests| == |c.requests| + 1 && Target(c, isGet, key) == |c.requests| && Extends(c, d)
  {
    RunsAreCoherent(ops);
    var c := After(ops).value;
    if isGet && key in c.inflight { assert OutstandingGet(c, c.inflight[key], key); }
  }

  /** A call without a key of its own never joins a request for another URL. */
  lemma JoinsOnlyItsOwnUrl(ops: seq<Op>, url: string, other: string, verb: string, id: nat)
    requires After(ops).Some? && OutstandingGet(After(ops).value, id, CacheKey(other, verb, ""))
    ensures Target(After(ops).value, true, CacheKey(url, verb, "")) == id <==> url == other
  {
    RunsAreCoherent(ops);
    DifferentUrlsHaveDifferentKeys(url, other, verb);
    hide After, CacheKey;
  }

  /**
    What the callers of a request read once it is answered: the status and body of a 2xx answer as a success, the
    status of any other as a failure, and status 0 when there was none. No other request is touched.
   */
  lemma AnswerTellsTheCaller(c: Client, id: nat, f: Fetched)
    requires Outstanding(c, id)
    ensures |Answer(c, id, f).requests| == |c.requests|
    ensures var reply := Answer(c, id, f).requests[id].reply;
      && (f.Unreachable? ==> reply == Some(Failure(0)))
      && (f.Responded? && 200 <= f.status < 300 ==> reply == Some(Success(f.status, f.body)))
      && (f.Responded? && !(200 <= f.status < 300) ==> reply == Some(Failure(f.status)))
    ensures forall q :: 0 <= q < |c.requests| && q != id ==> Answer(c, id, f).requests[q] == c.requests[q]
  { }

  /** Whether an answer counts as a lost connection: no answer at all, or a server error. */
  predicate CountsAsDown(f: Fetched) {
    f.Unreachable? || f.status >= 500
  }

  predicate IsOk(f: Fetched) {
    f.Responded? && 200 <= f.status < 300
  }

  /** The connectivity streak after a run: the lost answers since the last success, refusals in between ignored. */
  ghost function LostSinceSuccess(ops: seq<Op>): nat {
    if ops == [] then 0
    else
      var op := ops[|ops| - 1];
      if op.AskOp? then LostSinceSuccess(ops[..|ops| - 1])
      else if IsOk(op.fetched) then 0
      else LostSinceSuccess(ops[..|ops| - 1]) + if CountsAsDown(op.fetched) then 1 else 0
  }

  lemma {:induction false} StreakIsTheHistory(ops: seq<Op>)
    requires After(ops).Some?
    ensures After(ops).value.failStreak == LostSinceSuccess(ops)
  {
    if ops != [] { StreakIsTheHistory(ops[..|ops| - 1]); }
  }

  // ---------------------------------------------------------------- the client object

  class ApiClient {
    var inflight: map<string, nat>
    var requests: seq<Request>
    var connFailStreak: nat

    function View(): Client
      reads this
    {
      Client(inflight, requests, connFailStreak)
    }

    constructor ()
      ensures View() == EMPTY
    {
      inflight, requests, connFailStreak := map[], [], 0;
    }

    /** request(): returns the identity of the promise the caller awaits. */
    method Send(url: string, verb: string, key: string) returns (id: nat)
      modifies this
      ensures var isGet := verb == "GET" || verb == "";
              id == Target(old(View()), isGet, CacheKey(url, verb, key))
              && View() == Ask(old(View()), isGet, CacheKey(url, verb, key))
    {
      var cacheKey := CacheKey(url, verb, key);
      if verb == "GET" || verb == "" {
        if cacheKey in inflight { return inflight[cacheKey]; }
      }
      id := |requests|;
      requests := requests + [Request(verb == "GET" || verb == "", cacheKey, None)];
      if verb == "GET" || verb == "" {
        inflight := inflight[cacheKey := id];
      }
    }

    /** The fetch of request `id` ends: its promise resolves and its `finally` clears the dedup entry. */
    method Complete(id: nat, fetched: Fetched)
      requires Outstanding(View(), id)
      modifies this
      ensures View() == Answer(old(View()), id, fetched)
    {
      match fetched {
        case Unreachable => connFailStreak := connFailStreak + 1;
        case Responded(status, _) =>
          if !(200 <= status < 300) {
            if status >= 500 { connFailStreak := connFailStreak + 1; }
          } else {
            connFailStreak := 0;
          }
      }
      var request := requests[id];
      requests := requests[id := request.(reply := Some(Interpret(fetched)))];
      if request.isGet && request.key in inflight && inflight[request.key] == id {
        inflight := inflight - {request.key};
      }
    }
  }
}
