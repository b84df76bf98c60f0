/** What the views hand back to Django, and the plumbing they share: query parameters,
    the token-decryption failure, and uncaught exceptions. */
module Http {
  import opened Json
  import opened Upstream

  /** A DRF `Response(body, status)`, or an exception the view does not catch
      (which Django turns into a 500 page). */
  datatype Outcome = Response(status: int, body: Json) | Unhandled(exc: Exc)

  /** A view's outcome together with the upstream requests it issued, in order. */
  datatype Run = Run(outcome: Outcome, sent: seq<Request>)

  /** A step that may raise, together with the upstream requests it issued before it
      finished or raised. */
  datatype Traced<+T> = Traced(value: Py<T>, sent: seq<Request>)

  /** A loop whose body may return from the view: each item is handed to `step` in order, with
      the log the steps before it left; `Ok(None)` goes on to the next item, `Ok(Some(o))`
      returns `o`, an exception escapes, and `done` is returned after the last item. */
  function Loop<A, R>(step: (seq<Request>, A) -> Traced<Option<R>>, done: R, history: seq<Request>, xs: seq<A>)
    : (r: Traced<R>)
    // a body that always goes on runs once per item and the loop then answers `done`
    ensures (forall i, h :: 0 <= i < |xs| ==> step(h, xs[i]).value == Ok(None)) ==>
      r == Traced(Ok(done), Prior(step, history, xs, |xs|))
    decreases |xs|
  {
    if xs == [] then Traced(Ok(done), [])
    else
      assert forall i :: 0 <= i < |xs| - 1 ==> xs[1..][i] == xs[i + 1];
      var s := step(history, xs[0]);
      match s.value
      case Raise(e) => Traced(Raise(e), s.sent)
      case Ok(Some(o)) => Traced(Ok(o), s.sent)
      case Ok(None) =>
        var rest := Loop(step, done, history + s.sent, xs[1..]);
        Traced(rest.value, s.sent + rest.sent)
  }

  /** The requests the first `k` steps of `Loop` issue when each of them goes on. */
  function Prior<A, R>(step: (seq<Request>, A) -> Traced<Option<R>>, history: seq<Request>, xs: seq<A>, k: nat)
    : seq<Request>
    requires k <= |xs|
    decreases k
  {
    if k == 0 then []
    else
      var s := step(history, xs[0]);
      s.sent + Prior(step, history + s.sent, xs[1..], k - 1)
  }

  /** The log seen by step `j + 1` is the log seen by step `j` followed by that step's requests. */
  lemma {:induction false} PriorSnoc<A, R>(step: (seq<Request>, A) -> Traced<Option<R>>, history: seq<Request>,
                                           xs: seq<A>, j: nat)
    requires j < |xs|
    ensures Prior(step, history, xs, j + 1) ==
      Prior(step, history, xs, j) + step(history + Prior(step, history, xs, j), xs[j]).sent
    decreases j
  {
    var s := step(history, xs[0]);
    if j == 0 {
      assert history + [] == history;
    } else {
      PriorSnoc(step, history + s.sent, xs[1..], j - 1);
      var p := Prior(step, history + s.sent, xs[1..], j - 1);
      AppendTwice(history, s.sent, p);
      AppendTwice(s.sent, p, step(history + s.sent + p, xs[j]).sent);
    }
  }

  /** One request per item, in order. */
  function Each<A>(g: A -> Request, xs: seq<A>): (r: seq<Request>)
    ensures |r| == |xs|
    ensures forall j :: 0 <= j < |xs| ==> r[j] == g(xs[j])
  {
    if xs == [] then []
    else
      var n := |xs| - 1;
      assert forall j :: 0 <= j < n ==> xs[..n][j] == xs[j];
      Each(g, xs[..n]) + [g(xs[n])]
  }

  /** When every step that goes on issues exactly the request `g` makes of its item, the first
      `k` steps, all going on, issue those requests of the first `k` items. */
  lemma {:induction false} PriorEach<A, R>(step: (seq<Request>, A) -> Traced<Option<R>>, history: seq<Request>,
                                           xs: seq<A>, g: A -> Request, k: nat)
    requires k <= |xs|
    requires forall h, x :: step(h, x).value == Ok(None) ==> step(h, x).sent == [g(x)]
    requires forall j :: 0 <= j < k ==> step(history + Prior(step, history, xs, j), xs[j]).value == Ok(None)
    ensures Prior(step, history, xs, k) == Each(g, xs[..k])
    decreases k
  {
    if k == 0 {
      assert xs[..0] == [];
    } else {
      PriorEach(step, history, xs, g, k - 1);
      PriorSnoc(step, history, xs, k - 1);
      assert xs[..k][..k - 1] == xs[..k - 1];
    }
  }

  /** The requests of the first `k + 1` items: the first item's, then those of the next `k`. */
  lemma EachCons<A>(g: A -> Request, xs: seq<A>, k: nat)
    requires k < |xs|
    ensures Each(g, xs[..k + 1]) == [g(xs[0])] + Each(g, xs[1..][..k])
  {
    var all := Each(g, xs[..k + 1]);
    forall j | 0 <= j < k + 1 ensures all[j] == ([g(xs[0])] + Each(g, xs[1..][..k]))[j] {
      if j > 0 {
        assert xs[..k + 1][j] == xs[1..][..k][j - 1];
      }
    }
  }

  /** When every step issues at most the request `g` makes of its item, and exactly that one when
      it goes on, the loop issues those requests of its first `k` items, in order. */
  lemma {:induction false} LoopSendsEach<A, R>(step: (seq<Request>, A) -> Traced<Option<R>>, done: R,
                                               history: seq<Request>, xs: seq<A>, g: A -> Request)
    requires forall h, x :: step(h, x).sent == [] || step(h, x).sent == [g(x)]
    requires forall h, x :: step(h, x).value == Ok(None) ==> step(h, x).sent == [g(x)]
    ensures exists k :: 0 <= k <= |xs| && Loop(step, done, history, xs).sent == Each(g, xs[..k])
    decreases |xs|
  {
    assert Each(g, xs[..0]) == [];
    if xs != [] {
      var s := step(history, xs[0]);
      assert Each(g, xs[..1]) == [g(xs[0])];
      if s.value == Ok(None) {
        var rest := Loop(step, done, history + s.sent, xs[1..]);
        assert Loop(step, done, history, xs).sent == s.sent + rest.sent;
        LoopSendsEach(step, done, history + s.sent, xs[1..], g);
        var k :| 0 <= k <= |xs| - 1 && rest.sent == Each(g, xs[1..][..k]);
        EachCons(g, xs, k);
      } else {
        assert Loop(step, done, history, xs).sent == s.sent;
      }
    }
  }

  /** `Loop` stops at the first step that does not go on: every step before `k` goes on, and the
      loop answers what step `k` answers, or `done` when there is no step `k`. */
  lemma {:induction false} LoopStops<A, R>(step: (seq<Request>, A) -> Traced<Option<R>>, done: R,
                                           history: seq<Request>, xs: seq<A>) returns (k: nat)
    ensures k <= |xs|
    ensures forall j :: 0 <= j < k ==> step(history + Prior(step, history, xs, j), xs[j]).value == Ok(None)
    ensures k == |xs| ==> Loop(step, done, history, xs) == Traced(Ok(done), Prior(step, history, xs, k))
    ensures k < |xs| ==>
      var s := step(history + Prior(step, history, xs, k), xs[k]);
      && s.value != Ok(None)
      && Loop(step, done, history, xs).sent == Prior(step, history, xs, k) + s.sent
      && Loop(step, done, history, xs).value == (if s.value.Raise? then Raise(s.value.exc) else Ok(s.value.value.value))
    decreases |xs|
  {
    assert history + [] == history;
    if xs == [] {
      return 0;
    }
    var s := step(history, xs[0]);
    if s.value != Ok(None) {
      return 0;
    }
    var k' := LoopStops(step, done, history + s.sent, xs[1..]);
    k := k' + 1;
    forall j | 1 <= j <= |xs|
      ensures history + Prior(step, history, xs, j) == history + s.sent + Prior(step, history + s.sent, xs[1..], j - 1)
    {
      AppendTwice(history, s.sent, Prior(step, history + s.sent, xs[1..], j - 1));
    }
    assert forall j :: 1 <= j < |xs| ==> xs[j] == xs[1..][j - 1];
    if k < |xs| {
      var t := step(history + Prior(step, history, xs, k), xs[k]);
      AppendTwice(s.sent, Prior(step, history + s.sent, xs[1..], k'), t.sent);
    }
  }

  /** One more step of the loop: the log after it is the log before the next step, and the
      steps that go on extend by one when it goes on too. */
  lemma LoopAdvance<A, R>(step: (seq<Request>, A) -> Traced<Option<R>>, history: seq<Request>, xs: seq<A>,
                          i: nat, log: seq<Request>)
    requires i < |xs|
    requires forall j :: 0 <= j < i ==> step(history + Prior(step, history, xs, j), xs[j]).value == Ok(None)
    requires log == history + Prior(step, history, xs, i)
    ensures log + step(log, xs[i]).sent == history + Prior(step, history, xs, i + 1)
    ensures step(log, xs[i]).value == Ok(None) ==>
      forall j :: 0 <= j < i + 1 ==> step(history + Prior(step, history, xs, j), xs[j]).value == Ok(None)
  {
    PriorSnoc(step, history, xs, i);
    AppendTwice(history, Prior(step, history, xs, i), step(log, xs[i]).sent);
  }

  /** Once step `i` is the first that does not go on, `Loop` answers what that step answers. */
  lemma LoopAnswersAt<A, R>(step: (seq<Request>, A) -> Traced<Option<R>>, done: R, history: seq<Request>,
                            xs: seq<A>, i: nat)
    requires i < |xs|
    requires forall j :: 0 <= j < i ==> step(history + Prior(step, history, xs, j), xs[j]).value == Ok(None)
    requires step(history + Prior(step, history, xs, i), xs[i]).value != Ok(None)
    ensures var s := step(history + Prior(step, history, xs, i), xs[i]);
      && Loop(step, done, history, xs).sent == Prior(step, history, xs, i) + s.sent
      && Loop(step, done, history, xs).value == (if s.value.Raise? then Raise(s.value.exc) else Ok(s.value.value.value))
  {
    var k := LoopStops(step, done, history, xs);
    // the loop stops neither before step `i`, which all go on, nor after it, since it does not
    assert k <= i;
    assert k == i;
  }

  /** Once every step goes on, `Loop` answers `done` after the requests of all the steps. */
  lemma LoopAnswersDone<A, R>(step: (seq<Request>, A) -> Traced<Option<R>>, done: R, history: seq<Request>, xs: seq<A>)
    requires forall j :: 0 <= j < |xs| ==> step(history + Prior(step, history, xs, j), xs[j]).value == Ok(None)
    ensures Loop(step, done, history, xs) == Traced(Ok(done), Prior(step, history, xs, |xs|))
  {
    var k := LoopStops(step, done, history, xs);
  }

  /** An exception raised while computing a response propagates out of the view. */
  function Settle(p: Py<Outcome>): (o: Outcome)
    ensures p.Ok? ==> o == p.value
    ensures p.Raise? ==> o == Unhandled(p.exc)
  {
    match p
    case Ok(o) => o
    case Raise(e) => Unhandled(e)
  }

  /** `{"error": message}`. */
  function Error(message: string): Json {
    Dict([("error", Str(message))])
  }

  /** The answer of every view whose stored token does not decrypt. */
  function DecryptFailed(e: Exc): Outcome {
    Response(400, Dict([("error", Str("Token decrypt failed")), ("detail", Str(e.message))]))
  }

  /** `request.query_params`: each name with the value the view reads for it. */
  type Query = map<string, string>

  /** `request.query_params.get(name, default)`. */
  function Param(q: Query, name: string, default: string): string {
    if name in q then q[name] else default
  }

  /** `request.query_params.get(name)` is truthy: present and non-empty. */
  predicate HasParam(q: Query, name: string) {
    name in q && q[name] != ""
  }
}
