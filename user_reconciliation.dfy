/**
 * What the user handler (`configureUserEndpoint`) does over a run: the
 * requests it issues and the lines it writes, how a malformed entry and a
 * failed request end or do not end the run.
 */
module UserReconciliation {
  import opened Wrappers
  import opened Strings
  import opened Http
  import opened Trace
  import opened Config
  import opened Session
  import opened Orchestration
  import opened Expected

  /** A completed entry was well-formed; its trace is its delete exchange, the DELETED line, its create exchange and the CREATED line. */
  lemma EntrySteps(net: Network, host: string, key: string, raw: string, h: seq<Effect>)
    requires ReconcileEntry(net, host, key, raw, h).result.Ok?
    ensures ParseEntry(raw).Some?
    ensures var e := ParseEntry(raw).value;
      var d := Exchange(net, h, DeleteRequest(host, key, e.name));
      var c := Exchange(net, d.trace + [Log(Deleted, DeletedMessage(e.name))], CreateRequest(host, key, e));
      && d.result.Ok? && c.result.Ok?
      && ReconcileEntry(net, host, key, raw, h).trace == c.trace + [Log(Created, CreatedMessage(e.name))]
  {
  }

  /** Two exchanges, each followed by a log line, issue exactly their two requests. */
  lemma TwoExchangesCalls(net: Network, h: seq<Effect>, r1: Sent, l1: Effect, r2: Sent, l2: Effect)
    requires l1.Log? && l2.Log?
    ensures var d := Exchange(net, h, r1);
      CallsOf(Exchange(net, d.trace + [l1], r2).trace + [l2]) == CallsOf(h) + [r1, r2]
  {
    var d := Exchange(net, h, r1);
    var c := Exchange(net, d.trace + [l1], r2);
    CallsChain(h, d.trace, l1, c.trace, l2, r1, r2);
  }

  /** A completed entry issued its delete and then its create. */
  lemma EntryCompleteCalls(net: Network, host: string, key: string, raw: string, h: seq<Effect>)
    requires ReconcileEntry(net, host, key, raw, h).result.Ok?
    ensures ParseEntry(raw).Some?
    ensures CallsOf(ReconcileEntry(net, host, key, raw, h).trace) == CallsOf(h) + EntryCalls(host, key, raw)
  {
    EntrySteps(net, host, key, raw, h);
    var e := ParseEntry(raw).value;
    TwoExchangesCalls(net, h, DeleteRequest(host, key, e.name), Log(Deleted, DeletedMessage(e.name)),
                      CreateRequest(host, key, e), Log(Created, CreatedMessage(e.name)));
  }

  /** Two exchanges, each followed by a log line, add only those two lines to any state but ERROR. */
  lemma TwoExchangesMessages(net: Network, h: seq<Effect>, r1: Sent, l1: Effect, r2: Sent, l2: Effect, state: string)
    requires state != Error
    ensures var d := Exchange(net, h, r1);
      Messages(Exchange(net, d.trace + [l1], r2).trace + [l2], state)
      == Messages(h, state) + (if l1.Log? && l1.state == state then [l1.message] else [])
                            + (if l2.Log? && l2.state == state then [l2.message] else [])
  {
    var d := Exchange(net, h, r1);
    var c := Exchange(net, d.trace + [l1], r2);
    MessagesChain(h, d.trace, l1, c.trace, l2, state);
  }

  /** A completed entry logged one DELETED and then one CREATED line naming the user, and nothing else but ERROR lines. */
  lemma EntryCompleteLogs(net: Network, host: string, key: string, raw: string, h: seq<Effect>, state: string)
    requires ReconcileEntry(net, host, key, raw, h).result.Ok?
    requires state != Error
    ensures ParseEntry(raw).Some?
    ensures Messages(ReconcileEntry(net, host, key, raw, h).trace, state) == Messages(h, state) + EntryLines(raw, state)
  {
    EntrySteps(net, host, key, raw, h);
    var e := ParseEntry(raw).value;
    var r1, l1 := DeleteRequest(host, key, e.name), Log(Deleted, DeletedMessage(e.name));
    var r2, l2 := CreateRequest(host, key, e), Log(Created, CreatedMessage(e.name));
    var d := Exchange(net, h, r1);
    var c := Exchange(net, d.trace + [l1], r2);
    assert ReconcileEntry(net, host, key, raw, h).trace == c.trace + [l2];
    TwoExchangesMessages(net, h, r1, l1, r2, l2, state);
    EntryLinesOf(raw, e, state);
  }

  /** A completed list of entries went through every entry, in order, each completing. */
  lemma ReconcileStep(net: Network, host: string, key: string, entries: seq<string>, h: seq<Effect>)
    requires entries != []
    requires ReconcileUsers(net, host, key, entries, h).result.Ok?
    ensures var o0 := ReconcileEntry(net, host, key, entries[0], h);
      && o0.result.Ok?
      && ReconcileUsers(net, host, key, entries, h) == ReconcileUsers(net, host, key, entries[1..], o0.trace)
  {
  }

  /** A completed UserList: every entry was well-formed, and the requests are exactly UserCalls. */
  lemma {:induction false} ReconcileCompleteCalls(net: Network, host: string, key: string, entries: seq<string>, h: seq<Effect>)
    requires ReconcileUsers(net, host, key, entries, h).result.Ok?
    ensures forall i :: 0 <= i < |entries| ==> ParseEntry(entries[i]).Some?
    ensures CallsOf(ReconcileUsers(net, host, key, entries, h).trace) == CallsOf(h) + UserCalls(host, key, entries)
    decreases |entries|
  {
    if entries != [] {
      ReconcileStep(net, host, key, entries, h);
      var o0 := ReconcileEntry(net, host, key, entries[0], h);
      var o := ReconcileUsers(net, host, key, entries[1..], o0.trace);
      EntryCompleteCalls(net, host, key, entries[0], h);
      ReconcileCompleteCalls(net, host, key, entries[1..], o0.trace);
      AppendChain(CallsOf(h), CallsOf(o0.trace), CallsOf(o.trace),
                  EntryCalls(host, key, entries[0]), UserCalls(host, key, entries[1..]));
      forall i | 0 <= i < |entries| ensures ParseEntry(entries[i]).Some? {
        if i > 0 {
          assert entries[i] == entries[1..][i - 1];
        }
      }
    }
  }

  /** A completed UserList wrote exactly its entries' DELETED and CREATED lines, in order, besides ERROR lines. */
  lemma {:induction false} ReconcileCompleteLogs(net: Network, host: string, key: string, entries: seq<string>, h: seq<Effect>, state: string)
    requires ReconcileUsers(net, host, key, entries, h).result.Ok?
    requires state != Error
    ensures Messages(ReconcileUsers(net, host, key, entries, h).trace, state) == Messages(h, state) + UserLines(entries, state)
    decreases |entries|
  {
    if entries != [] {
      ReconcileStep(net, host, key, entries, h);
      var o0 := ReconcileEntry(net, host, key, entries[0], h);
      var o := ReconcileUsers(net, host, key, entries[1..], o0.trace);
      EntryCompleteLogs(net, host, key, entries[0], h, state);
      ReconcileCompleteLogs(net, host, key, entries[1..], o0.trace, state);
      AppendChain(Messages(h, state), Messages(o0.trace, state), Messages(o.trace, state),
                  EntryLines(entries[0], state), UserLines(entries[1..], state));
    }
  }

  /**
   * A completed UserList of K entries: every entry was well-formed, the
   * requests are exactly UserCalls, no INFO line was written, and the
   * K DELETED and K CREATED lines of UserLines were, in entry order.
   */
  lemma ReconcileComplete(net: Network, host: string, key: string, entries: seq<string>, h: seq<Effect>)
    requires ReconcileUsers(net, host, key, entries, h).result.Ok?
    ensures forall i :: 0 <= i < |entries| ==> ParseEntry(entries[i]).Some?
    ensures var o := ReconcileUsers(net, host, key, entries, h);
      && CallsOf(o.trace) == CallsOf(h) + UserCalls(host, key, entries)
      && Messages(o.trace, Info) == Messages(h, Info)
      && Messages(o.trace, Deleted) == Messages(h, Deleted) + UserLines(entries, Deleted)
      && Messages(o.trace, Created) == Messages(h, Created) + UserLines(entries, Created)
    ensures |UserLines(entries, Deleted)| == |entries| && |UserLines(entries, Created)| == |entries|
  {
    StatesDistinct();
    ReconcileCompleteCalls(net, host, key, entries, h);
    ReconcileCompleteLogs(net, host, key, entries, h, Info);
    ReconcileCompleteLogs(net, host, key, entries, h, Deleted);
    ReconcileCompleteLogs(net, host, key, entries, h, Created);
    UserLinesInfo(entries);
    UserLinesCount(entries, Deleted);
    UserLinesCount(entries, Created);
  }

  /** With no transport failure, a UserList whose entries are all well-formed completes. */
  lemma {:induction false} ReconcileCompletes(net: Network, host: string, key: string, entries: seq<string>, h: seq<Effect>)
    requires AlwaysReachable(net)
    requires forall i :: 0 <= i < |entries| ==> ParseEntry(entries[i]).Some?
    ensures ReconcileUsers(net, host, key, entries, h).result.Ok?
    decreases |entries|
  {
    if entries != [] {
      assert ParseEntry(entries[0]).Some?;
      var o0 := ReconcileEntry(net, host, key, entries[0], h);
      assert o0.result.Ok?;
      forall i | 0 <= i < |entries[1..]| ensures ParseEntry(entries[1..][i]).Some? {
        assert entries[1..][i] == entries[i + 1];
      }
      ReconcileCompletes(net, host, key, entries[1..], o0.trace);
    }
  }

  /** An entry that fails as malformed is the one given, issued nothing and logged nothing. */
  lemma EntryMalformed(net: Network, host: string, key: string, raw: string, h: seq<Effect>, bad: string)
    requires ReconcileEntry(net, host, key, raw, h).result == Err(MalformedEntry(bad))
    ensures raw == bad && ParseEntry(raw).None? && ReconcileEntry(net, host, key, raw, h).trace == h
  {
  }

  /**
   * A malformed entry ends the run before any request for it: it is the
   * first malformed entry, and the entries before it issued exactly their
   * own requests.
   */
  lemma {:induction false} MalformedStops(net: Network, host: string, key: string, entries: seq<string>, h: seq<Effect>, raw: string)
    requires ReconcileUsers(net, host, key, entries, h).result == Err(MalformedEntry(raw))
    ensures FirstMalformed(entries) < |entries| && entries[FirstMalformed(entries)] == raw
    ensures CallsOf(ReconcileUsers(net, host, key, entries, h).trace)
      == CallsOf(h) + UserCalls(host, key, entries[..FirstMalformed(entries)])
    decreases |entries|
  {
    var o0 := ReconcileEntry(net, host, key, entries[0], h);
    if o0.result.Err? {
      EntryMalformed(net, host, key, entries[0], h, raw);
      assert entries[..0] == [];
    } else {
      var o := ReconcileUsers(net, host, key, entries[1..], o0.trace);
      assert ReconcileUsers(net, host, key, entries, h) == o;
      EntryCompleteCalls(net, host, key, entries[0], h);
      MalformedStops(net, host, key, entries[1..], o0.trace, raw);
      var j := FirstMalformed(entries);
      assert j == 1 + FirstMalformed(entries[1..]);
      UserCallsPrefix(host, key, entries, j);
      AppendChain(CallsOf(h), CallsOf(o0.trace), CallsOf(o.trace),
                  EntryCalls(host, key, entries[0]), UserCalls(host, key, entries[1..][..j - 1]));
    }
  }

  /** A well-formed entry whose delete gets any answer goes on to its create; the CREATED line follows unless the create fails in transport. */
  lemma EntryAfterDelete(net: Network, host: string, key: string, raw: string, h: seq<Effect>)
    requires ParseEntry(raw).Some?
    requires !net(h, DeleteRequest(host, key, ParseEntry(raw).value.name)).Unreachable?
    ensures var e := ParseEntry(raw).value;
      var d := Exchange(net, h, DeleteRequest(host, key, e.name));
      var c := Exchange(net, d.trace + [Log(Deleted, DeletedMessage(e.name))], CreateRequest(host, key, e));
      var o := ReconcileEntry(net, host, key, raw, h);
      && d.result.Ok?
      && o.trace == (if c.result.Err? then c.trace else c.trace + [Log(Created, CreatedMessage(e.name))])
  {
  }

  /** A call and two log lines, then a second call: whatever follows keeps that prefix. */
  lemma RejectedPrefix(h: seq<Effect>, r1: Sent, le: Effect, d: seq<Effect>, l1: Effect, r2: Sent, c: seq<Effect>, o: seq<Effect>)
    requires d == h + [Call(r1), le]
    requires d + [l1] + [Call(r2)] <= c
    requires c <= o
    ensures h + [Call(r1), le, l1, Call(r2)] <= o
  {
    assert d + [l1] + [Call(r2)] == h + [Call(r1), le, l1, Call(r2)];
  }

  /** An exchange starts with its request; a rejected one adds its ERROR line and nothing else. */
  lemma ExchangeShape(net: Network, h: seq<Effect>, req: Sent)
    ensures h + [Call(req)] <= Exchange(net, h, req).trace
    ensures net(h, req).Rejected? ==>
      Exchange(net, h, req).trace == h + [Call(req), Log(Error, RestErrorMessage(net(h, req).body))]
  {
  }

  /**
   * A failed delete is only logged: the create request for the same entry
   * still follows it.
   */
  lemma DeleteFailureStillCreates(net: Network, host: string, key: string, raw: string, h: seq<Effect>)
    requires ParseEntry(raw).Some?
    requires !net(h, DeleteRequest(host, key, ParseEntry(raw).value.name)).Unreachable?
    ensures var e := ParseEntry(raw).value; var o := ReconcileEntry(net, host, key, raw, h);
      CallsOf(o.trace) == CallsOf(h) + [DeleteRequest(host, key, e.name), CreateRequest(host, key, e)]
  {
    var e := ParseEntry(raw).value;
    var r1, l1 := DeleteRequest(host, key, e.name), Log(Deleted, DeletedMessage(e.name));
    var r2, l2 := CreateRequest(host, key, e), Log(Created, CreatedMessage(e.name));
    var d := Exchange(net, h, r1);
    var c := Exchange(net, d.trace + [l1], r2);
    EntryAfterDelete(net, host, key, raw, h);
    CallsChain(h, d.trace, l1, c.trace, l2, r1, r2);
  }

  /**
   * After a delete answered with an HTTP error come its ERROR line, the
   * DELETED line and the create request, in that order.
   */
  lemma DeleteFailureLogged(net: Network, host: string, key: string, raw: string, h: seq<Effect>)
    requires ParseEntry(raw).Some?
    requires net(h, DeleteRequest(host, key, ParseEntry(raw).value.name)).Rejected?
    ensures var e := ParseEntry(raw).value; var o := ReconcileEntry(net, host, key, raw, h);
      var r := net(h, DeleteRequest(host, key, e.name));
      h + [Call(DeleteRequest(host, key, e.name)), Log(Error, RestErrorMessage(r.body)),
           Log(Deleted, DeletedMessage(e.name)), Call(CreateRequest(host, key, e))] <= o.trace
  {
    var e := ParseEntry(raw).value;
    var r1, l1 := DeleteRequest(host, key, e.name), Log(Deleted, DeletedMessage(e.name));
    var r2 := CreateRequest(host, key, e);
    var d := Exchange(net, h, r1);
    var c := Exchange(net, d.trace + [l1], r2);
    var o := ReconcileEntry(net, host, key, raw, h);
    EntryAfterDelete(net, host, key, raw, h);
    assert c.trace <= o.trace;
    ExchangeShape(net, h, r1);
    ExchangeShape(net, d.trace + [l1], r2);
    RejectedPrefix(h, r1, Log(Error, RestErrorMessage(net(h, r1).body)), d.trace, l1, r2, c.trace, o.trace);
  }
}
