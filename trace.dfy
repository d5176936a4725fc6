/**
 * The observable behaviour of a run: the requests handed to the transport
 * and the `writeLog` lines, in the order they happen. The network is an
 * oracle that answers each request, possibly depending on everything that
 * happened before it.
 */
module Trace {
  import opened Wrappers
  import opened Http

  /** One observable event. `Log` keeps the state and message of a log line. */
  datatype Effect = Call(request: Sent) | Log(state: string, message: string)

  /**
   * The transport's answer: a body, an HTTP error with its body (caught and
   * logged by `callRestEndpoint`), or any other failure such as a refused
   * connection (not caught, so it ends the run).
   */
  datatype Response = Delivered(body: string) | Rejected(body: string) | Unreachable

  /** The remote side: the answer to a request, given the trace so far. */
  type Network = (seq<Effect>, Sent) -> Response

  /** The uncaught exceptions that end a run. */
  datatype Fault =
    | LoginFailed(host: string)        // login answered with an HTTP error: no body to parse
    | NoSessionKey(host: string)       // the login answer holds no usable sessionKey text
    | MissingUserList                  // a user endpoint file without a UserList section
    | MalformedEntry(entry: string)    // a UserList value with fewer than three fields
    | TransportFailure(url: string)    // a non-HTTP failure of the transport

  /** The trace after a step, and either its result or the fault that ended the run. */
  datatype Outcome<+T> = Outcome(trace: seq<Effect>, result: Result<T, Fault>)

  /** Every node answers every request, possibly with an HTTP error. */
  ghost predicate AlwaysReachable(net: Network)
  {
    forall t, s :: !net(t, s).Unreachable?
  }

  /** The requests of a trace, in order. */
  function CallsOf(t: seq<Effect>): seq<Sent>
  {
    if t == [] then []
    else CallsOf(t[..|t| - 1]) + (if t[|t| - 1].Call? then [t[|t| - 1].request] else [])
  }

  /** The messages of the log lines of a trace written with `state`, in order. */
  function Messages(t: seq<Effect>, state: string): seq<string>
  {
    if t == [] then []
    else Messages(t[..|t| - 1], state) + (if t[|t| - 1].Log? && t[|t| - 1].state == state then [t[|t| - 1].message] else [])
  }

  lemma CallsOfSnoc(t: seq<Effect>, e: Effect)
    ensures CallsOf(t + [e]) == CallsOf(t) + (if e.Call? then [e.request] else [])
  {
    assert (t + [e])[..|t|] == t;
  }

  lemma MessagesSnoc(t: seq<Effect>, e: Effect, state: string)
    ensures Messages(t + [e], state) == Messages(t, state) + (if e.Log? && e.state == state then [e.message] else [])
  {
    assert (t + [e])[..|t|] == t;
  }

  lemma {:induction false} CallsOfAppend(a: seq<Effect>, b: seq<Effect>)
    ensures CallsOf(a + b) == CallsOf(a) + CallsOf(b)
    decreases |b|
  {
    if b == [] {
      assert a + b == a;
    } else {
      var b' := b[..|b| - 1];
      assert a + b == (a + b') + [b[|b| - 1]];
      CallsOfAppend(a, b');
      CallsOfSnoc(a + b', b[|b| - 1]);
      CallsOfSnoc(b', b[|b| - 1]);
      assert b == b' + [b[|b| - 1]];
    }
  }

  lemma {:induction false} MessagesAppend(a: seq<Effect>, b: seq<Effect>, state: string)
    ensures Messages(a + b, state) == Messages(a, state) + Messages(b, state)
    decreases |b|
  {
    if b == [] {
      assert a + b == a;
    } else {
      var b' := b[..|b| - 1];
      assert a + b == (a + b') + [b[|b| - 1]];
      MessagesAppend(a, b', state);
      MessagesSnoc(a + b', b[|b| - 1], state);
      MessagesSnoc(b', b[|b| - 1], state);
      assert b == b' + [b[|b| - 1]];
    }
  }

  /** Two calls, each followed by a log line, add exactly those two requests. */
  lemma CallsChain(h: seq<Effect>, d: seq<Effect>, l1: Effect, c: seq<Effect>, l2: Effect, r1: Sent, r2: Sent)
    requires CallsOf(d) == CallsOf(h) + [r1]
    requires CallsOf(c) == CallsOf(d + [l1]) + [r2]
    requires l1.Log? && l2.Log?
    ensures CallsOf(c) == CallsOf(h) + [r1, r2]
    ensures CallsOf(c + [l2]) == CallsOf(h) + [r1, r2]
  {
    CallsOfSnoc(d, l1);
    CallsOfSnoc(c, l2);
    assert (CallsOf(h) + [r1]) + [r2] == CallsOf(h) + [r1, r2];
  }

  /** Two steps that keep the messages of `state`, each followed by a log line, add only those two lines. */
  lemma MessagesChain(h: seq<Effect>, d: seq<Effect>, l1: Effect, c: seq<Effect>, l2: Effect, state: string)
    requires Messages(d, state) == Messages(h, state)
    requires Messages(c, state) == Messages(d + [l1], state)
    ensures Messages(c + [l2], state)
      == Messages(h, state) + (if l1.Log? && l1.state == state then [l1.message] else [])
                            + (if l2.Log? && l2.state == state then [l2.message] else [])
  {
    MessagesSnoc(d, l1, state);
    MessagesSnoc(c, l2, state);
  }

  /** Two log lines add no request, and add to each state exactly its own lines. */
  lemma TwoLogs(h: seq<Effect>, l1: Effect, l2: Effect, state: string)
    requires l1.Log? && l2.Log?
    ensures (h + [l1]) + [l2] == h + [l1, l2]
    ensures CallsOf(h + [l1, l2]) == CallsOf(h)
    ensures Messages(h + [l1, l2], state)
      == Messages(h, state) + (if l1.state == state then [l1.message] else [])
                            + (if l2.state == state then [l2.message] else [])
  {
    assert (h + [l1]) + [l2] == h + [l1, l2];
    CallsOfSnoc(h, l1);
    CallsOfSnoc(h + [l1], l2);
    MessagesSnoc(h, l1, state);
    MessagesSnoc(h + [l1], l2, state);
  }

  lemma AppendChain<T>(a: seq<T>, b: seq<T>, c: seq<T>, x: seq<T>, y: seq<T>)
    requires b == a + x && c == b + y
    ensures c == a + (x + y)
  {
    assert (a + x) + y == a + (x + y);
  }
}
