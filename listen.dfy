/**
 * pkg/listen.go: `executeTemplate` (render, compare with the last applied output, write,
 * run the action, remember the output), `update` (every template in order, stopping at the
 * first error) and `Listen` (an initial pass, then one `update` per published message until
 * an error).
 */
module Listen {
  import opened Wrappers
  import opened Engine
  import Config

  /**
   * A compiled template as listen.go uses it: its name (the source path, also its cache
   * key), the file to write (absent or empty: no write) and the command of its action.
   */
  datatype Template = Template(name: string, target: Option<string>, action: string)

  predicate HasTarget(t: Template) {
    t.target.Some? && t.target.value != ""
  }

  /** What applying a changed output does when nothing fails: the write (if any target), then the action. */
  function Plan(t: Template, out: string): seq<Effect> {
    (if HasTarget(t) then [WriteFile(t.target.value, out)] else []) + [RunAction(t.action)]
  }

  /**
   * `executeTemplate`. A render error returns at once. An output equal to the previous one
   * (a missing entry reads as `""`) does nothing. A changed output performs a prefix of the
   * plan, write before action, and stops at the first failure; the cache takes the new
   * output only when both steps succeed, and no other entry ever changes.
   */
  function Executed(cache: map<string, string>, t: Template, a: Attempt): (r: Applied)
    ensures r.cache - {t.name} == cache - {t.name}
    ensures r.err.Some? ==> r.cache == cache
    ensures a.render.Failure? ==> r == Applied(cache, [], Some(RenderError(a.render.error)))
    ensures a.render.Success? && Previous(cache, t.name) == a.render.value ==> r == Applied(cache, [], None)
    ensures a.render.Success? && Previous(cache, t.name) != a.render.value ==>
              && r.effects <= Plan(t, a.render.value)
              && r.effects != []
              && (r.err.None? <==> (!HasTarget(t) || a.writeOk) && a.actionOk)
              && (r.err.None? ==> r.effects == Plan(t, a.render.value))
              && (RunAction(t.action) in r.effects <==> !HasTarget(t) || a.writeOk)
    ensures r.err.None? ==> a.render.Success? && Previous(r.cache, t.name) == a.render.value
    ensures r.err.Some? ==> !r.err.value.SubscriptionError?
    ensures |r.effects| <= 2
  {
    match a.render
    case Failure(e) => Applied(cache, [], Some(RenderError(e)))
    case Success(out) =>
      if Previous(cache, t.name) == out then Applied(cache, [], None)
      else if HasTarget(t) && !a.writeOk then
        Applied(cache, [WriteFile(t.target.value, out)], Some(WriteError(t.target.value)))
      else if !a.actionOk then Applied(cache, Plan(t, out), Some(ActionError(t.action)))
      else Applied(cache[t.name := out], Plan(t, out), None)
  }

  /** The cache keys of a template list. */
  function Names(ts: seq<Template>): set<string> {
    set i | 0 <= i < |ts| :: ts[i].name
  }

  lemma NamesCons(ts: seq<Template>)
    requires ts != []
    ensures Names(ts) == {ts[0].name} + Names(ts[1..])
  {
    forall n | n in Names(ts) ensures n in {ts[0].name} + Names(ts[1..]) {
      var i :| 0 <= i < |ts| && ts[i].name == n;
      if i > 0 { assert ts[1..][i - 1].name == n; }
    }
    forall n | n in Names(ts[1..]) ensures n in Names(ts) {
      var i :| 0 <= i < |ts[1..]| && ts[1..][i].name == n;
      assert ts[i + 1].name == n;
    }
  }

  /** No two templates share a name. */
  ghost predicate Distinct(ts: seq<Template>) {
    forall i, j :: 0 <= i < j < |ts| ==> ts[i].name != ts[j].name
  }

  /**
   * `update` (without its splay delay): execute every template in order and return the first
   * error, executing nothing after it. Only the templates' own entries can change, and a
   * successful batch has rendered every template.
   */
  function Updated(cache: map<string, string>, ts: seq<Template>, attempts: seq<Attempt>): (r: Applied)
    requires |attempts| == |ts|
    ensures r.cache - Names(ts) == cache - Names(ts)
    ensures r.err.None? ==> forall i :: 0 <= i < |ts| ==> attempts[i].render.Success?
    ensures r.err.Some? ==> !r.err.value.SubscriptionError?
    ensures |r.effects| <= 2 * |ts|
    decreases |ts|
  {
    if ts == [] then Applied(cache, [], None)
    else
      var h := Executed(cache, ts[0], attempts[0]);
      NamesCons(ts);
      if h.err.Some? then
        AgreeOutsideMore(h.cache, cache, {ts[0].name}, Names(ts));
        h
      else
        var rest := Updated(h.cache, ts[1..], attempts[1..]);
        AgreeOutsideMore(rest.cache, h.cache, Names(ts[1..]), Names(ts));
        AgreeOutsideMore(h.cache, cache, {ts[0].name}, Names(ts));
        assert forall i :: 1 <= i < |ts| ==> attempts[i] == attempts[1..][i - 1];
        Chain(h.effects, rest)
  }

  /** One step of a batch started at position `i`: the template at `i`, then the rest. */
  lemma UpdatedStep(cache: map<string, string>, ts: seq<Template>, attempts: seq<Attempt>, i: nat)
    requires |attempts| == |ts| && i < |ts|
    ensures var h := Executed(cache, ts[i], attempts[i]);
            Updated(cache, ts[i..], attempts[i..])
            == if h.err.Some? then h else Chain(h.effects, Updated(h.cache, ts[i + 1..], attempts[i + 1..]))
  {
    assert ts[i..][0] == ts[i] && attempts[i..][0] == attempts[i];
    assert ts[i..][1..] == ts[i + 1..] && attempts[i..][1..] == attempts[i + 1..];
  }

  /**
   * A batch is the batch of its first `k` templates followed by the batch of the rest: when
   * the first part fails, that failure is the whole result and no later template is
   * executed; otherwise the rest runs on the cache the first part left.
   */
  lemma {:induction false} UpdatedSplit(cache: map<string, string>, ts: seq<Template>, attempts: seq<Attempt>, k: nat)
    requires |attempts| == |ts| && k <= |ts|
    ensures var first := Updated(cache, ts[..k], attempts[..k]);
            first.err.Some? ==> Updated(cache, ts, attempts) == first
    ensures var first := Updated(cache, ts[..k], attempts[..k]);
            first.err.None? ==>
              Updated(cache, ts, attempts) == Chain(first.effects, Updated(first.cache, ts[k..], attempts[k..]))
    decreases k
  {
    if k == 0 {
      assert ts[..0] == [] && attempts[..0] == [];
      assert ts[0..] == ts && attempts[0..] == attempts;
      assert [] + Updated(cache, ts, attempts).effects == Updated(cache, ts, attempts).effects;
    } else {
      var h := Executed(cache, ts[0], attempts[0]);
      var tk, ak := ts[..k], attempts[..k];
      var ts1, as1 := ts[1..], attempts[1..];
      assert tk[0] == ts[0] && ak[0] == attempts[0];
      assert tk[1..] == ts1[..k - 1] && ak[1..] == as1[..k - 1];
      if h.err.None? {
        assert ts1[k - 1..] == ts[k..] && as1[k - 1..] == attempts[k..];
        UpdatedSplit(h.cache, ts1, as1, k - 1);
        var first1 := Updated(h.cache, ts1[..k - 1], as1[..k - 1]);
        assert Updated(cache, tk, ak) == Chain(h.effects, first1);
        assert Updated(cache, ts, attempts) == Chain(h.effects, Updated(h.cache, ts1, as1));
        if first1.err.None? {
          ChainTwice(h.effects, first1.effects, Updated(first1.cache, ts[k..], attempts[k..]));
        }
      } else {
        assert Updated(cache, tk, ak) == h;
        assert Updated(cache, ts, attempts) == h;
      }
    }
  }

  /** With distinct names, a successful batch leaves each template's entry holding its output. */
  lemma {:induction false} UpdatedCachesEveryOutput(cache: map<string, string>, ts: seq<Template>, attempts: seq<Attempt>)
    requires |attempts| == |ts| && Distinct(ts)
    requires Updated(cache, ts, attempts).err.None?
    ensures forall i :: 0 <= i < |ts| ==>
              attempts[i].render.Success? && Previous(Updated(cache, ts, attempts).cache, ts[i].name) == attempts[i].render.value
    decreases |ts|
  {
    if ts != [] {
      var h := Executed(cache, ts[0], attempts[0]);
      var rest := Updated(h.cache, ts[1..], attempts[1..]);
      assert Distinct(ts[1..]) by {
        forall i, j | 0 <= i < j < |ts[1..]| ensures ts[1..][i].name != ts[1..][j].name {
          assert ts[1..][i] == ts[i + 1] && ts[1..][j] == ts[j + 1];
        }
      }
      UpdatedCachesEveryOutput(h.cache, ts[1..], attempts[1..]);
      assert ts[0].name !in Names(ts[1..]) by {
        forall j | 0 <= j < |ts[1..]| ensures ts[1..][j].name != ts[0].name {
          assert ts[1..][j] == ts[j + 1];
        }
      }
      PreviousOutside(rest.cache, h.cache, Names(ts[1..]), ts[0].name);
      forall i | 1 <= i < |ts|
        ensures attempts[i].render.Success? && Previous(rest.cache, ts[i].name) == attempts[i].render.value
      {
        assert ts[i] == ts[1..][i - 1] && attempts[i] == attempts[1..][i - 1];
      }
    }
  }

  /** A batch whose every output equals what the cache holds writes nothing and runs nothing. */
  lemma {:induction false} QuietWhenCached(cache: map<string, string>, ts: seq<Template>, attempts: seq<Attempt>)
    requires |attempts| == |ts|
    requires forall i :: 0 <= i < |ts| ==>
               attempts[i].render.Success? && Previous(cache, ts[i].name) == attempts[i].render.value
    ensures Updated(cache, ts, attempts) == Applied(cache, [], None)
    decreases |ts|
  {
    if ts != [] {
      forall i | 0 <= i < |ts| - 1
        ensures attempts[1..][i].render.Success? && Previous(cache, ts[1..][i].name) == attempts[1..][i].render.value
      {
        assert ts[1..][i] == ts[i + 1] && attempts[1..][i] == attempts[i + 1];
      }
      QuietWhenCached(cache, ts[1..], attempts[1..]);
    }
  }

  /**
   * Idempotence of a batch: after a successful batch, a second batch rendering the same
   * outputs writes nothing, runs nothing and changes nothing.
   */
  lemma SecondUpdateIsQuiet(cache: map<string, string>, ts: seq<Template>, first: seq<Attempt>, second: seq<Attempt>)
    requires |first| == |ts| && |second| == |ts| && Distinct(ts)
    requires Updated(cache, ts, first).err.None?
    requires forall i :: 0 <= i < |ts| ==> second[i].render == first[i].render
    ensures var c := Updated(cache, ts, first).cache;
            Updated(c, ts, second) == Applied(c, [], None)
  {
    UpdatedCachesEveryOutput(cache, ts, first);
    QuietWhenCached(Updated(cache, ts, first).cache, ts, second);
  }

  /** Executing a template twice with the same output: the second execution does nothing. */
  lemma SecondExecutionIsQuiet(cache: map<string, string>, t: Template, first: Attempt, second: Attempt)
    requires Executed(cache, t, first).err.None?
    requires second.render == first.render
    ensures var c := Executed(cache, t, first).cache;
            Executed(c, t, second) == Applied(c, [], None)
  {
  }

  /**
   * A failed write or action leaves the cache as it was, so the same output on the next
   * execution is again "changed" and the apply is attempted again.
   */
  lemma FailedApplyIsRetried(cache: map<string, string>, t: Template, first: Attempt, second: Attempt)
    requires first.render.Success? && Previous(cache, t.name) != first.render.value
    requires Executed(cache, t, first).err.Some?
    requires second.render == first.render
    ensures Executed(cache, t, first).cache == cache
    ensures Executed(Executed(cache, t, first).cache, t, second).effects != []
  {
  }

  /**
   * The first execution of a template (no entry yet) counts as a change exactly when the
   * output is not empty: a first output `""` reads as unchanged and is neither written nor
   * followed by the action.
   */
  lemma FirstExecution(cache: map<string, string>, t: Template, a: Attempt)
    requires t.name !in cache && a.render.Success?
    ensures Executed(cache, t, a).effects == [] <==> a.render.value == ""
    ensures a.render.value == "" ==> Executed(cache, t, a) == Applied(cache, [], None)
  {
  }

  /**
   * The loop of `Listen` over the replies it receives, after the initial pass: a message runs
   * one batch and a failing batch ends the loop with its error; an error reply ends it with
   * that error; any other reply is ignored. When the replies run out it is still waiting.
   */
  function Served(cache: map<string, string>, ts: seq<Template>, events: seq<Event>): (r: Session)
    requires BatchesFit(|ts|, events)
    ensures r.cache - Names(ts) == cache - Names(ts)
    ensures !r.outcome.Exited?
    decreases |events|
  {
    if events == [] then Session(cache, [], Waiting)
    else
      match events[0]
      case Notice => Served(cache, ts, events[1..])
      case ReceiveError(reason) => Session(cache, [], Stopped(SubscriptionError(reason)))
      case Message(batch) =>
        var u := Updated(cache, ts, batch);
        if u.err.Some? then
          Session(u.cache, u.effects, Stopped(u.err.value))
        else
          var rest := Served(u.cache, ts, events[1..]);
          AgreeOutsideMore(rest.cache, u.cache, Names(ts), Names(ts));
          ChainSession(u.effects, rest)
  }

  /**
   * An error reply always ends the loop: the loop is still waiting only if no reply was an
   * error, and a subscription error it stops with is the reason of the first error reply.
   */
  lemma {:induction false} ServedStopsOnErrorReply(cache: map<string, string>, ts: seq<Template>, events: seq<Event>)
    requires BatchesFit(|ts|, events)
    ensures Served(cache, ts, events).outcome.Waiting? ==>
              forall i :: 0 <= i < |events| ==> !events[i].ReceiveError?
    ensures var r := Served(cache, ts, events);
            r.outcome.Stopped? && r.outcome.err.SubscriptionError? ==>
              exists j :: 0 <= j < |events| && events[j] == ReceiveError(r.outcome.err.reason)
                          && forall k :: 0 <= k < j ==> !events[k].ReceiveError?
    decreases |events|
  {
    if events != [] && !events[0].ReceiveError? {
      assert BatchesFit(|ts|, events[1..]);
      var next := cache;
      if events[0].Message? {
        var u := Updated(cache, ts, events[0].batch);
        if u.err.Some? {
          return;
        }
        next := u.cache;
      }
      ServedStopsOnErrorReply(next, ts, events[1..]);
      assert forall i :: 1 <= i < |events| ==> events[i] == events[1..][i - 1];
      var r := Served(next, ts, events[1..]);
      if r.outcome.Stopped? && r.outcome.err.SubscriptionError? {
        var j :| 0 <= j < |events[1..]| && events[1..][j] == ReceiveError(r.outcome.err.reason)
                 && forall k :: 0 <= k < j ==> !events[1..][k].ReceiveError?;
        assert events[j + 1] == ReceiveError(r.outcome.err.reason);
        assert forall k :: 0 <= k < j + 1 ==> !events[k].ReceiveError? by {
          forall k | 0 <= k < j + 1 ensures !events[k].ReceiveError? {
            if k > 0 { assert events[k] == events[1..][k - 1]; }
          }
        }
      }
    }
  }

  /** A reply at position `i` that is neither a message nor an error is skipped. */
  lemma ServedSkip(cache: map<string, string>, ts: seq<Template>, events: seq<Event>, i: nat)
    requires BatchesFit(|ts|, events) && i < |events| && events[i].Notice?
    ensures BatchesFit(|ts|, events[i..]) && BatchesFit(|ts|, events[i + 1..])
    ensures Served(cache, ts, events[i..]) == Served(cache, ts, events[i + 1..])
  {
    assert events[i..][0] == events[i] && events[i..][1..] == events[i + 1..];
  }

  /** An error reply at position `i` ends the loop with that error and nothing done. */
  lemma ServedStop(cache: map<string, string>, ts: seq<Template>, events: seq<Event>, i: nat)
    requires BatchesFit(|ts|, events) && i < |events| && events[i].ReceiveError?
    ensures BatchesFit(|ts|, events[i..])
    ensures Served(cache, ts, events[i..]) == Session(cache, [], Stopped(SubscriptionError(events[i].reason)))
  {
    assert events[i..][0] == events[i];
  }

  /** A message at position `i` runs its batch, then (unless the batch fails) the rest. */
  lemma ServedBatch(cache: map<string, string>, ts: seq<Template>, events: seq<Event>, i: nat)
    requires BatchesFit(|ts|, events) && i < |events| && events[i].Message?
    ensures |events[i].batch| == |ts|
    ensures BatchesFit(|ts|, events[i..]) && BatchesFit(|ts|, events[i + 1..])
    ensures Updated(cache, ts, events[i].batch).err.Some? ==>
              var u := Updated(cache, ts, events[i].batch);
              Served(cache, ts, events[i..]) == Session(u.cache, u.effects, Stopped(u.err.value))
    ensures Updated(cache, ts, events[i].batch).err.None? ==>
              var u := Updated(cache, ts, events[i].batch);
              Served(cache, ts, events[i..]) == ChainSession(u.effects, Served(u.cache, ts, events[i + 1..]))
  {
    assert events[i..][0] == events[i] && events[i..][1..] == events[i + 1..];
  }

  /**
   * Replies are handled one after the other: once a prefix of them has ended the loop,
   * nothing after it is handled; otherwise the rest is handled from where the prefix left.
   */
  lemma {:induction false} ServedSplit(cache: map<string, string>, ts: seq<Template>, events: seq<Event>, k: nat)
    requires BatchesFit(|ts|, events) && k <= |events|
    ensures BatchesFit(|ts|, events[..k]) && BatchesFit(|ts|, events[k..])
    ensures var first := Served(cache, ts, events[..k]);
            !first.outcome.Waiting? ==> Served(cache, ts, events) == first
    ensures var first := Served(cache, ts, events[..k]);
            first.outcome.Waiting? ==>
              Served(cache, ts, events) == ChainSession(first.effects, Served(first.cache, ts, events[k..]))
    decreases k
  {
    if k == 0 {
      assert events[..0] == [] && events[0..] == events;
      assert [] + Served(cache, ts, events).effects == Served(cache, ts, events).effects;
    } else {
      var pre, es1 := events[..k], events[1..];
      assert pre[0..] == pre && events[0..] == events;
      assert pre[0] == events[0];
      assert pre[1..] == es1[..k - 1] && es1[k - 1..] == events[k..];
      match events[0]
      case Notice =>
        ServedSplit(cache, ts, es1, k - 1);
      case ReceiveError(_) =>
      case Message(batch) =>
        var u := Updated(cache, ts, batch);
        if u.err.None? {
          ServedSplit(u.cache, ts, es1, k - 1);
          var first1 := Served(u.cache, ts, es1[..k - 1]);
          if first1.outcome.Waiting? {
            ChainSessionTwice(u.effects, first1.effects, Served(first1.cache, ts, events[k..]));
          }
        }
    }
  }

  /**
   * `Listen`: the initial pass runs every template in order from an empty cache; an error
   * there is returned before subscribing, so no reply is ever handled. Otherwise the replies
   * are served from the cache the initial pass left.
   */
  function Listened(ts: seq<Template>, initial: seq<Attempt>, events: seq<Event>): (r: Session)
    requires |initial| == |ts| && BatchesFit(|ts|, events)
    ensures r.cache.Keys <= Names(ts)
    ensures !r.outcome.Exited?
    ensures var first := Updated(map[], ts, initial);
            first.err.Some? ==> r == Session(first.cache, first.effects, Stopped(first.err.value))
    ensures var first := Updated(map[], ts, initial);
            first.err.None? ==> first.effects <= r.effects
  {
    var first := Updated(map[], ts, initial);
    KeysWithin(first.cache, Names(ts));
    if first.err.Some? then
      Session(first.cache, first.effects, Stopped(first.err.value))
    else
      var rest := Served(first.cache, ts, events);
      AgreeOutsideMore(rest.cache, first.cache, Names(ts), Names(ts));
      KeysWithin(rest.cache, Names(ts));
      ChainSession(first.effects, rest)
  }

  /**
   * After a successful initial pass, a message whose batch renders the same outputs again
   * (with distinct names) writes nothing and runs no action.
   */
  lemma RepeatedMessageIsQuiet(ts: seq<Template>, initial: seq<Attempt>, again: seq<Attempt>)
    requires |initial| == |ts| && |again| == |ts| && Distinct(ts)
    requires Updated(map[], ts, initial).err.None?
    requires forall i :: 0 <= i < |ts| ==> again[i].render == initial[i].render
    ensures Listened(ts, initial, [Message(again)]).effects == Updated(map[], ts, initial).effects
    ensures Listened(ts, initial, [Message(again)]).outcome == Waiting
  {
    var first := Updated(map[], ts, initial);
    var c := first.cache;
    var events := [Message(again)];
    SecondUpdateIsQuiet(map[], ts, initial, again);
    assert Updated(c, ts, again) == Applied(c, [], None);
    assert events[0] == Message(again) && events[1..] == [];
    assert Served(c, ts, events[1..]) == Session(c, [], Waiting);
    assert Served(c, ts, events) == Session(c, [], Waiting);
    assert first.effects + [] == first.effects;
  }

  /**
   * The template body of pkg/listen_test.go, `{{key "foo"}}` and `{{keyOrDefault "bar" "World"}}`
   * on two lines, rendered against a store; a failing lookup fails the render.
   */
  function TestRender(store: map<string, string>, conn: Config.Connection): (r: Result<string, string>)
    ensures conn == Config.Connection(true, true, true) && "foo" in store ==>
              r == Success(store["foo"] + "\n" + (if "bar" in store then store["bar"] else "World"))
    ensures !(conn.dialOk && conn.getOk && conn.closeOk && "foo" in store) ==> r.Failure?
  {
    var foo := Config.Key(store, conn, Config.Str("foo"));
    var bar := Config.KeyOrDefault(store, conn, Config.Str("bar"), Config.Str("World"));
    if foo.Success? && foo.value.Str? && bar.Success? && bar.value.Str? then
      Success(foo.value.s + "\n" + bar.value.s)
    else Failure("template: error calling a lookup")
  }

  /** A batch of one template is one execution. */
  lemma UpdatedSingle(cache: map<string, string>, t: Template, a: Attempt)
    ensures Updated(cache, [t], [a]) == Executed(cache, t, a)
  {
    assert [t][1..] == [] && [a][1..] == [];
    assert Executed(cache, t, a).effects + [] == Executed(cache, t, a).effects;
  }

  /**
   * Two templates with the same source path share one cache entry: once the first has
   * applied an output, the second sees it as unchanged, so its own target is never written
   * and its action never runs.
   */
  lemma DuplicateNamesShareEntry(t1: Template, t2: Template, out: string)
    requires t1.name == t2.name && HasTarget(t1) && HasTarget(t2) && out != ""
    ensures var a := Attempt(Success(out), true, true);
            Updated(map[], [t1, t2], [a, a]) == Applied(map[t1.name := out], Plan(t1, out), None)
    ensures var a := Attempt(Success(out), true, true);
            t1.target != t2.target ==> WriteFile(t2.target.value, out) !in Updated(map[], [t1, t2], [a, a]).effects
  {
    var a := Attempt(Success(out), true, true);
    var c := map[t1.name := out];
    var ts, attempts := [t1, t2], [a, a];
    assert Executed(map[], t1, a) == Applied(c, Plan(t1, out), None);
    UpdatedSingle(c, t2, a);
    assert Previous(c, t2.name) == out;
    assert Updated(c, [t2], [a]) == Applied(c, [], None);
    assert ts[0] == t1 && attempts[0] == a && ts[1..] == [t2] && attempts[1..] == [a];
    assert Updated(map[], ts, attempts) == Chain(Plan(t1, out), Applied(c, [], None));
    assert Plan(t1, out) + [] == Plan(t1, out);
  }

  /**
   * One template with a target, rendered to a non-empty output by the initial pass and to a
   * different output by the one message that follows a notice: both outputs are written and
   * each write is followed by the action, the cache ends with the second output, and the
   * error reply that comes next ends the run with that error.
   */
  lemma TwoRendersTwoApplies(t: Template, out1: string, out2: string, reason: string)
    requires HasTarget(t) && out1 != "" && out1 != out2
    ensures Listened([t], [Attempt(Success(out1), true, true)],
                     [Notice, Message([Attempt(Success(out2), true, true)]), ReceiveError(reason)])
            == Session(map[t.name := out2], Plan(t, out1) + Plan(t, out2), Stopped(SubscriptionError(reason)))
  {
    var first, second := Attempt(Success(out1), true, true), Attempt(Success(out2), true, true);
    var c1, c2 := map[t.name := out1], map[t.name := out2];
    var stop := Stopped(SubscriptionError(reason));
    UpdatedSingle(map[], t, first);
    assert Updated(map[], [t], [first]) == Applied(c1, Plan(t, out1), None);
    UpdatedSingle(c1, t, second);
    assert c1[t.name := out2] == c2;
    assert Updated(c1, [t], [second]) == Applied(c2, Plan(t, out2), None);
    var events := [Notice, Message([second]), ReceiveError(reason)];
    assert events[1..] == [Message([second]), ReceiveError(reason)] && events[1..][1..] == [ReceiveError(reason)];
    assert Served(c2, [t], events[1..][1..]) == Session(c2, [], stop);
    assert Plan(t, out2) + [] == Plan(t, out2);
    assert Served(c1, [t], events[1..]) == Session(c2, Plan(t, out2), stop);
    assert Served(c1, [t], events) == Session(c2, Plan(t, out2), stop);
  }

  /**
   * The scenario of pkg/listen_test.go: with `foo` set to "Hello!!", the initial pass writes
   * "Hello!!" and "World" and runs the action; after `foo` is set to "Hello" and one message
   * is published, the file is written again with "Hello" and "World" and the action runs
   * again; once the store goes away, the subscription's error reply makes `Listen` return
   * with that error.
   */
  lemma ListenTestScenario(reason: string)
    ensures var conn := Config.Connection(true, true, true);
            var t := Template("./test.json.tpl", Some("./test.json"), "echo \"value\" > ./test.log");
            var first := Attempt(TestRender(map["foo" := "Hello!!"], conn), true, true);
            var second := Attempt(TestRender(map["foo" := "Hello"], conn), true, true);
            Listened([t], [first], [Notice, Message([second]), ReceiveError(reason)])
            == Session(map[t.name := "Hello" + "\n" + "World"],
                       [ WriteFile("./test.json", "Hello!!" + "\n" + "World"), RunAction(t.action),
                         WriteFile("./test.json", "Hello" + "\n" + "World"), RunAction(t.action) ],
                       Stopped(SubscriptionError(reason)))
  {
    var conn := Config.Connection(true, true, true);
    var t := Template("./test.json.tpl", Some("./test.json"), "echo \"value\" > ./test.log");
    var out1, out2 := "Hello!!" + "\n" + "World", "Hello" + "\n" + "World";
    assert TestRender(map["foo" := "Hello!!"], conn) == Success(out1);
    assert TestRender(map["foo" := "Hello"], conn) == Success(out2);
    assert out1 != out2 by { assert out1[5] != out2[5]; }
    TwoRendersTwoApplies(t, out1, out2, reason);
  }

  /** `executeTemplate` on the shared map, with the world's decisions for this execution. */
  method ExecuteTemplate(t: Template, a: Attempt, cache: RenderCache, host: Host) returns (err: Option<Error>)
    modifies cache, host
    ensures var r := Executed(old(cache.entries), t, a);
            cache.entries == r.cache && host.log == old(host.log) + r.effects && err == r.err
  {
    if a.render.Failure? {
      return Some(RenderError(a.render.error));
    }
    var out := a.render.value;
    var previous := cache.Lookup(t.name);
    if previous != out {
      if HasTarget(t) {
        var written := host.Write(t.target.value, out, a.writeOk);
        if !written {
          return Some(WriteError(t.target.value));
        }
      }
      var ran := host.Run(t.action, a.actionOk);
      if !ran {
        return Some(ActionError(t.action));
      }
      cache.Store(t.name, out);
    }
    return None;
  }

  /** `update`: execute the templates in order and return the first error. */
  method Update(ts: seq<Template>, attempts: seq<Attempt>, cache: RenderCache, host: Host) returns (err: Option<Error>)
    requires |attempts| == |ts|
    modifies cache, host
    ensures var r := Updated(old(cache.entries), ts, attempts);
            cache.entries == r.cache && host.log == old(host.log) + r.effects && err == r.err
  {
    ghost var done: seq<Effect> := [];
    var i := 0;
    while i < |ts|
      invariant 0 <= i <= |ts|
      invariant host.log == old(host.log) + done
      invariant Updated(old(cache.entries), ts, attempts) == Chain(done, Updated(cache.entries, ts[i..], attempts[i..]))
    {
      ghost var h := Executed(cache.entries, ts[i], attempts[i]);
      ghost var logBefore := host.log;
      UpdatedStep(cache.entries, ts, attempts, i);
      err := ExecuteTemplate(ts[i], attempts[i], cache, host);
      assert cache.entries == h.cache && err == h.err && host.log == logBefore + h.effects;
      AppendAssoc(old(host.log), done, h.effects);
      if err.Some? {
        assert Updated(old(cache.entries), ts, attempts) == Chain(done, h);
        return;
      }
      ghost var rest := Updated(h.cache, ts[i + 1..], attempts[i + 1..]);
      assert Updated(old(cache.entries), ts, attempts) == Chain(done, Chain(h.effects, rest));
      ChainTwice(done, h.effects, rest);
      done := done + h.effects;
      i := i + 1;
    }
    assert ts[i..] == [] && attempts[i..] == [];
    return None;
  }

  /** The receive loop of `Listen`: handle the replies in order until one ends the loop. */
  method Serve(ts: seq<Template>, events: seq<Event>, cache: RenderCache, host: Host) returns (outcome: Outcome)
    requires BatchesFit(|ts|, events)
    modifies cache, host
    ensures var r := Served(old(cache.entries), ts, events);
            cache.entries == r.cache && host.log == old(host.log) + r.effects && outcome == r.outcome
  {
    ghost var done: seq<Effect> := [];
    assert events[0..] == events;
    var i := 0;
    while i < |events|
      invariant 0 <= i <= |events|
      invariant host.log == old(host.log) + done
      invariant BatchesFit(|ts|, events[i..])
      invariant Served(old(cache.entries), ts, events) == ChainSession(done, Served(cache.entries, ts, events[i..]))
    {
      ghost var before := cache.entries;
      var e := events[i];
      if e.ReceiveError? {
        ServedStop(before, ts, events, i);
        assert done + [] == done;
        return Stopped(SubscriptionError(e.reason));
      }
      if e.Notice? {
        ServedSkip(before, ts, events, i);
      } else {
        ServedBatch(before, ts, events, i);
        ghost var u := Updated(before, ts, e.batch);
        ghost var logBefore := host.log;
        var err := Update(ts, e.batch, cache, host);
        assert cache.entries == u.cache && host.log == logBefore + u.effects && err == u.err;
        AppendAssoc(old(host.log), done, u.effects);
        if err.Some? {
          assert Served(before, ts, events[i..]) == Session(u.cache, u.effects, Stopped(u.err.value));
          return Stopped(err.value);
        }
        ghost var rest := Served(u.cache, ts, events[i + 1..]);
        assert Served(before, ts, events[i..]) == ChainSession(u.effects, rest);
        ChainSessionTwice(done, u.effects, rest);
        done := done + u.effects;
      }
      i := i + 1;
    }
    assert events[i..] == [] && done + [] == done;
    return Waiting;
  }

  /**
   * `Listen`, over the replies the subscription delivers: the initial pass from an empty
   * cache, then the receive loop. The initial pass at listen.go:84-88 is the same loop as
   * `update`'s, without the splay.
   */
  method Listen(ts: seq<Template>, initial: seq<Attempt>, events: seq<Event>, host: Host)
    returns (outcome: Outcome, cache: RenderCache)
    requires |initial| == |ts| && BatchesFit(|ts|, events)
    modifies host
    ensures fresh(cache)
    ensures var r := Listened(ts, initial, events);
            cache.entries == r.cache && host.log == old(host.log) + r.effects && outcome == r.outcome
  {
    cache := new RenderCache();
    var err := Update(ts, initial, cache, host);
    if err.Some? {
      return Stopped(err.value), cache;
    }
    ghost var first := Updated(map[], ts, initial);
    ghost var logBefore := host.log;
    outcome := Serve(ts, events, cache, host);
    AppendAssoc(old(host.log), first.effects, host.log[|logBefore|..]);
  }
}
