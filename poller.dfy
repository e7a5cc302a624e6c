/**
 * pkg/poller.go: `Poll`, the older loop. It subscribes first, then renders every template
 * once (a failure there is fatal), then reloads every template on each message, skipping a
 * template that fails and going on with the next one.
 */
module Poller {
  import opened Wrappers
  import opened Engine

  /** parser.go's `Template`: the compiled source (by name), the file to write, the command. */
  datatype Template = Template(name: string, target: string, action: string)

  /** The cache after a whole reload batch and the effects performed; a batch never fails. */
  datatype Batch = Batch(cache: map<string, string>, effects: seq<Effect>)

  /** The cache keys of a template list. */
  function Names(ts: seq<Template>): set<string> {
    set i | 0 <= i < |ts| :: ts[i].name
  }

  lemma NamesCons(ts: seq<Template>)
    requires ts != []
    ensures Names(ts) == {ts[0].name} + Names(ts[1..])
  {
    forall n | n in Names(ts) ensures n in {ts[0].name} + Names(ts[1..]) {
      var i :| 0 <= i < |ts| && ts[i].name == n;
      if i > 0 { assert ts[1..][i - 1].name == n; }
    }
    forall n | n in Names(ts[1..]) ensures n in Names(ts) {
      var i :| 0 <= i < |ts[1..]| && ts[1..][i].name == n;
      assert ts[i + 1].name == n;
    }
  }

  /** No two templates share a name. */
  ghost predicate Distinct(ts: seq<Template>) {
    forall i, j :: 0 <= i < j < |ts| ==> ts[i].name != ts[j].name
  }

  lemma DistinctTail(ts: seq<Template>)
    requires ts != [] && Distinct(ts)
    ensures Distinct(ts[1..]) && ts[0].name !in Names(ts[1..])
  {
    forall i, j | 0 <= i < j < |ts[1..]| ensures ts[1..][i].name != ts[1..][j].name {
      assert ts[1..][i] == ts[i + 1] && ts[1..][j] == ts[j + 1];
    }
    forall j | 0 <= j < |ts[1..]| ensures ts[1..][j].name != ts[0].name {
      assert ts[1..][j] == ts[j + 1];
    }
  }

  /**
   * One template of the initial pass. A render failure is fatal. A changed output (a missing
   * entry reads as `""`) is written, and a failed write is fatal; an unchanged one is not
   * written. No action runs. Unless the pass dies, the entry is set to the output whether
   * or not anything was written.
   */
  function Primed1(cache: map<string, string>, t: Template, a: Attempt): (r: Applied)
    ensures r.err.Some? ==> r.cache == cache && !r.err.value.SubscriptionError?
    ensures a.render.Failure? ==> r == Applied(cache, [], Some(RenderError(a.render.error)))
    ensures a.render.Success? ==>
              var out := a.render.value;
              && (r.effects == if Previous(cache, t.name) != out then [WriteFile(t.target, out)] else [])
              && (r.err.None? <==> Previous(cache, t.name) == out || a.writeOk)
              && (r.err.None? ==> r.cache == cache[t.name := out])
    ensures forall e :: e in r.effects ==> e.WriteFile?
  {
    match a.render
    case Failure(e) => Applied(cache, [], Some(RenderError(e)))
    case Success(out) =>
      if Previous(cache, t.name) != out && !a.writeOk then
        Applied(cache, [WriteFile(t.target, out)], Some(WriteError(t.target)))
      else
        Applied(cache[t.name := out], if Previous(cache, t.name) != out then [WriteFile(t.target, out)] else [], None)
  }

  /**
   * The initial pass over every template in order; the first fatal error ends it (the
   * process exits), so nothing after it is rendered. It writes files and runs no action.
   */
  function Primed(cache: map<string, string>, ts: seq<Template>, attempts: seq<Attempt>): (r: Applied)
    requires |attempts| == |ts|
    ensures r.cache - Names(ts) == cache - Names(ts)
    ensures r.err.None? ==> forall i :: 0 <= i < |ts| ==> attempts[i].render.Success?
    ensures r.err.Some? ==> !r.err.value.SubscriptionError?
    ensures forall e :: e in r.effects ==> e.WriteFile?
    decreases |ts|
  {
    if ts == [] then Applied(cache, [], None)
    else
      var h := Primed1(cache, ts[0], attempts[0]);
      NamesCons(ts);
      AgreeOutsideMore(h.cache, cache, {ts[0].name}, Names(ts));
      if h.err.Some? then h
      else
        var rest := Primed(h.cache, ts[1..], attempts[1..]);
        AgreeOutsideMore(rest.cache, h.cache, Names(ts[1..]), Names(ts));
        assert forall i :: 1 <= i < |ts| ==> attempts[i] == attempts[1..][i - 1];
        Chain(h.effects, rest)
  }

  /** One step of the initial pass started at position `i`. */
  lemma PrimedStep(cache: map<string, string>, ts: seq<Template>, attempts: seq<Attempt>, i: nat)
    requires |attempts| == |ts| && i < |ts|
    ensures Primed1(cache, ts[i], attempts[i]).err.Some? ==>
              Primed(cache, ts[i..], attempts[i..]) == Primed1(cache, ts[i], attempts[i])
    ensures var h := Primed1(cache, ts[i], attempts[i]);
            h.err.None? ==>
              Primed(cache, ts[i..], attempts[i..]) == Chain(h.effects, Primed(h.cache, ts[i + 1..], attempts[i + 1..]))
  {
    assert ts[i..][0] == ts[i] && attempts[i..][0] == attempts[i];
    assert ts[i..][1..] == ts[i + 1..] && attempts[i..][1..] == attempts[i + 1..];
  }

  /**
   * Splitting the initial pass after `k` templates: a fatal error in the first `k` ends the
   * whole pass with it, so nothing after it is rendered or written; otherwise the rest of the
   * pass runs on the cache the first `k` left.
   */
  lemma {:induction false} PrimedSplit(cache: map<string, string>, ts: seq<Template>, attempts: seq<Attempt>, k: nat)
    requires |attempts| == |ts| && k <= |ts|
    ensures var first := Primed(cache, ts[..k], attempts[..k]);
            first.err.Some? ==> Primed(cache, ts, attempts) == first
    ensures var first := Primed(cache, ts[..k], attempts[..k]);
            first.err.None? ==>
              Primed(cache, ts, attempts) == Chain(first.effects, Primed(first.cache, ts[k..], attempts[k..]))
    decreases k
  {
    if k == 0 {
      assert ts[..0] == [] && attempts[..0] == [];
      assert ts[0..] == ts && attempts[0..] == attempts;
      assert [] + Primed(cache, ts, attempts).effects == Primed(cache, ts, attempts).effects;
    } else {
      var h := Primed1(cache, ts[0], attempts[0]);
      var tk, ak := ts[..k], attempts[..k];
      var ts1, as1 := ts[1..], attempts[1..];
      assert tk[0] == ts[0] && ak[0] == attempts[0];
      assert tk[1..] == ts1[..k - 1] && ak[1..] == as1[..k - 1];
      if h.err.None? {
        assert ts1[k - 1..] == ts[k..] && as1[k - 1..] == attempts[k..];
        PrimedSplit(h.cache, ts1, as1, k - 1);
        var first1 := Primed(h.cache, ts1[..k - 1], as1[..k - 1]);
        assert Primed(cache, tk, ak) == Chain(h.effects, first1);
        assert Primed(cache, ts, attempts) == Chain(h.effects, Primed(h.cache, ts1, as1));
        if first1.err.None? {
          ChainTwice(h.effects, first1.effects, Primed(first1.cache, ts[k..], attempts[k..]));
        }
      } else {
        assert Primed(cache, tk, ak) == h;
        assert Primed(cache, ts, attempts) == h;
      }
    }
  }

  /**
   * With distinct names, a complete initial pass leaves every template's entry holding its
   * output, written or not.
   */
  lemma {:induction false} PrimedCachesEveryOutput(cache: map<string, string>, ts: seq<Template>, attempts: seq<Attempt>)
    requires |attempts| == |ts| && Distinct(ts)
    requires Primed(cache, ts, attempts).err.None?
    ensures forall i :: 0 <= i < |ts| ==>
              attempts[i].render.Success? && Previous(Primed(cache, ts, attempts).cache, ts[i].name) == attempts[i].render.value
    decreases |ts|
  {
    if ts != [] {
      var h := Primed1(cache, ts[0], attempts[0]);
      var rest := Primed(h.cache, ts[1..], attempts[1..]);
      DistinctTail(ts);
      PrimedCachesEveryOutput(h.cache, ts[1..], attempts[1..]);
      PreviousOutside(rest.cache, h.cache, Names(ts[1..]), ts[0].name);
      forall i | 1 <= i < |ts|
        ensures attempts[i].render.Success? && Previous(rest.cache, ts[i].name) == attempts[i].render.value
      {
        assert ts[i] == ts[1..][i - 1] && attempts[i] == attempts[1..][i - 1];
      }
    }
  }

  /** What a reload of a rendered output attempts: the write when it changed, then the action. */
  function Plan(t: Template, out: string, changed: bool): seq<Effect> {
    (if changed then [WriteFile(t.target, out)] else []) + [RunAction(t.action)]
  }

  /** A template is applied by a reload when it renders, is written if changed, and its action succeeds. */
  predicate Applies(cache: map<string, string>, t: Template, a: Attempt) {
    a.render.Success? && (Previous(cache, t.name) == a.render.value || a.writeOk) && a.actionOk
  }

  /**
   * One template of a reload batch; its error (if any) is only logged. A render failure
   * skips it. A changed output is written, and a failed write skips it with no action. The
   * action runs for every rendered template whose write did not fail, changed or not; the
   * entry becomes the output only when the action succeeds.
   */
  function Reloaded1(cache: map<string, string>, t: Template, a: Attempt): (r: Applied)
    ensures r.err.None? <==> Applies(cache, t, a)
    ensures r.err.None? ==> r.cache == cache[t.name := a.render.value]
    ensures r.err.Some? ==> r.cache == cache
    ensures a.render.Failure? ==> r.effects == []
    ensures a.render.Success? ==>
              var out := a.render.value;
              var changed := Previous(cache, t.name) != out;
              && r.effects <= Plan(t, out, changed)
              && (WriteFile(t.target, out) in r.effects <==> changed)
              && (RunAction(t.action) in r.effects <==> !changed || a.writeOk)
  {
    match a.render
    case Failure(e) => Applied(cache, [], Some(RenderError(e)))
    case Success(out) =>
      var changed := Previous(cache, t.name) != out;
      if changed && !a.writeOk then
        Applied(cache, [WriteFile(t.target, out)], Some(WriteError(t.target)))
      else if !a.actionOk then
        Applied(cache, Plan(t, out, changed), Some(ActionError(t.action)))
      else
        Applied(cache[t.name := out], Plan(t, out, changed), None)
  }

  /** A reload batch: every template in order, whatever happened to the ones before it. */
  function Reloaded(cache: map<string, string>, ts: seq<Template>, attempts: seq<Attempt>): (r: Batch)
    requires |attempts| == |ts|
    ensures r.cache - Names(ts) == cache - Names(ts)
    ensures |r.effects| <= 2 * |ts|
    decreases |ts|
  {
    if ts == [] then Batch(cache, [])
    else
      var h := Reloaded1(cache, ts[0], attempts[0]);
      var rest := Reloaded(h.cache, ts[1..], attempts[1..]);
      NamesCons(ts);
      AgreeOutsideMore(h.cache, cache, {ts[0].name}, Names(ts));
      AgreeOutsideMore(rest.cache, h.cache, Names(ts[1..]), Names(ts));
      Batch(rest.cache, h.effects + rest.effects)
  }

  /** One step of a reload batch started at position `i`. */
  lemma ReloadedStep(cache: map<string, string>, ts: seq<Template>, attempts: seq<Attempt>, i: nat)
    requires |attempts| == |ts| && i < |ts|
    ensures var h := Reloaded1(cache, ts[i], attempts[i]);
            var rest := Reloaded(h.cache, ts[i + 1..], attempts[i + 1..]);
            Reloaded(cache, ts[i..], attempts[i..]) == Batch(rest.cache, h.effects + rest.effects)
  {
    assert ts[i..][0] == ts[i] && attempts[i..][0] == attempts[i];
    assert ts[i..][1..] == ts[i + 1..] && attempts[i..][1..] == attempts[i + 1..];
  }

  /**
   * Every template is visited whatever happened before it: with distinct names, each entry
   * ends holding the template's output when the template was applied, and its old value
   * otherwise.
   */
  lemma {:induction false} ReloadedVisitsEveryTemplate(cache: map<string, string>, ts: seq<Template>, attempts: seq<Attempt>)
    requires |attempts| == |ts| && Distinct(ts)
    ensures forall i :: 0 <= i < |ts| ==>
              Previous(Reloaded(cache, ts, attempts).cache, ts[i].name)
              == if Applies(cache, ts[i], attempts[i]) then attempts[i].render.value else Previous(cache, ts[i].name)
    decreases |ts|
  {
    if ts != [] {
      var h := Reloaded1(cache, ts[0], attempts[0]);
      var rest := Reloaded(h.cache, ts[1..], attempts[1..]);
      DistinctTail(ts);
      ReloadedVisitsEveryTemplate(h.cache, ts[1..], attempts[1..]);
      PreviousOutside(rest.cache, h.cache, Names(ts[1..]), ts[0].name);
      forall i | 1 <= i < |ts|
        ensures Previous(rest.cache, ts[i].name)
                == if Applies(cache, ts[i], attempts[i]) then attempts[i].render.value else Previous(cache, ts[i].name)
      {
        assert ts[i] == ts[1..][i - 1] && attempts[i] == attempts[1..][i - 1];
        assert ts[i].name != ts[0].name;
        PreviousOutside(h.cache, cache, {ts[0].name}, ts[i].name);
      }
    }
  }

  /**
   * What each template of a batch would do on its own against the cache the batch starts
   * from, joined in order.
   */
  function EachEffects(cache: map<string, string>, ts: seq<Template>, attempts: seq<Attempt>): seq<Effect>
    requires |attempts| == |ts|
    decreases |ts|
  {
    if ts == [] then [] else Reloaded1(cache, ts[0], attempts[0]).effects + EachEffects(cache, ts[1..], attempts[1..])
  }

  /** An entry none of the templates reads cannot change what they do. */
  lemma {:induction false} EachEffectsOutside(c1: map<string, string>, c2: map<string, string>, ts: seq<Template>,
                                              attempts: seq<Attempt>, k: string)
    requires |attempts| == |ts| && c1 - {k} == c2 - {k} && k !in Names(ts)
    ensures EachEffects(c1, ts, attempts) == EachEffects(c2, ts, attempts)
    decreases |ts|
  {
    if ts != [] {
      NamesCons(ts);
      PreviousOutside(c1, c2, {k}, ts[0].name);
      EachEffectsOutside(c1, c2, ts[1..], attempts[1..], k);
    }
  }

  /**
   * The effects of a reload batch, with distinct names, are each template's own effects
   * against the starting cache, in order: a template that failed to render, to be written
   * or to run its action takes nothing away from the writes and actions of the ones after it.
   */
  lemma {:induction false} ReloadedEffects(cache: map<string, string>, ts: seq<Template>, attempts: seq<Attempt>)
    requires |attempts| == |ts| && Distinct(ts)
    ensures Reloaded(cache, ts, attempts).effects == EachEffects(cache, ts, attempts)
    decreases |ts|
  {
    if ts != [] {
      var h := Reloaded1(cache, ts[0], attempts[0]);
      DistinctTail(ts);
      ReloadedEffects(h.cache, ts[1..], attempts[1..]);
      assert h.cache - {ts[0].name} == cache - {ts[0].name};
      EachEffectsOutside(h.cache, cache, ts[1..], attempts[1..], ts[0].name);
    }
  }

  /** The actions of a template list, in order. */
  function Actions(ts: seq<Template>): seq<Effect> {
    if ts == [] then [] else [RunAction(ts[0].action)] + Actions(ts[1..])
  }

  /**
   * A reload whose every output equals what the cache holds writes nothing but still runs
   * every template's action, in order.
   */
  lemma {:induction false} ReloadedWhenCached(cache: map<string, string>, ts: seq<Template>, attempts: seq<Attempt>)
    requires |attempts| == |ts|
    requires forall i :: 0 <= i < |ts| ==>
               attempts[i].render.Success? && Previous(cache, ts[i].name) == attempts[i].render.value
    ensures Reloaded(cache, ts, attempts).effects == Actions(ts)
    decreases |ts|
  {
    if ts != [] {
      var h := Reloaded1(cache, ts[0], attempts[0]);
      assert h.effects == [RunAction(ts[0].action)];
      forall i | 0 <= i < |ts| - 1
        ensures attempts[1..][i].render.Success? && Previous(h.cache, ts[1..][i].name) == attempts[1..][i].render.value
      {
        assert ts[1..][i] == ts[i + 1] && attempts[1..][i] == attempts[i + 1];
      }
      ReloadedWhenCached(h.cache, ts[1..], attempts[1..]);
    }
  }

  /**
   * The receive loop of `Poll`: every message reloads all templates, any other reply is
   * ignored, and only an error reply ends the loop, with that error.
   */
  function Polled(cache: map<string, string>, ts: seq<Template>, events: seq<Event>): (r: Session)
    requires BatchesFit(|ts|, events)
    ensures r.cache - Names(ts) == cache - Names(ts)
    ensures r.outcome.Stopped? ==> r.outcome.err.SubscriptionError?
    ensures !r.outcome.Exited?
    decreases |events|
  {
    if events == [] then Session(cache, [], Waiting)
    else
      match events[0]
      case Notice => Polled(cache, ts, events[1..])
      case ReceiveError(reason) => Session(cache, [], Stopped(SubscriptionError(reason)))
      case Message(batch) =>
        var b := Reloaded(cache, ts, batch);
        var rest := Polled(b.cache, ts, events[1..]);
        AgreeOutsideMore(rest.cache, b.cache, Names(ts), Names(ts));
        ChainSession(b.effects, rest)
  }

  /**
   * `Poll` returns exactly at the first error reply, with its error, and keeps waiting as
   * long as no reply is an error.
   */
  lemma {:induction false} PolledStopsAtFirstErrorReply(cache: map<string, string>, ts: seq<Template>, events: seq<Event>)
    requires BatchesFit(|ts|, events)
    ensures Polled(cache, ts, events).outcome.Waiting? <==>
              forall i :: 0 <= i < |events| ==> !events[i].ReceiveError?
    ensures var r := Polled(cache, ts, events);
            r.outcome.Stopped? ==>
              exists j :: 0 <= j < |events| && events[j] == ReceiveError(r.outcome.err.reason)
                          && forall k :: 0 <= k < j ==> !events[k].ReceiveError?
    decreases |events|
  {
    if events != [] {
      assert BatchesFit(|ts|, events[1..]);
      var next := cache;
      if events[0].Message? {
        next := Reloaded(cache, ts, events[0].batch).cache;
      }
      if !events[0].ReceiveError? {
        PolledStopsAtFirstErrorReply(next, ts, events[1..]);
        assert forall i :: 1 <= i < |events| ==> events[i] == events[1..][i - 1];
        var r := Polled(next, ts, events[1..]);
        if r.outcome.Stopped? {
          var j :| 0 <= j < |events[1..]| && events[1..][j] == ReceiveError(r.outcome.err.reason)
                   && forall k :: 0 <= k < j ==> !events[1..][k].ReceiveError?;
          assert events[j + 1] == ReceiveError(r.outcome.err.reason);
          assert forall k :: 0 <= k < j + 1 ==> !events[k].ReceiveError? by {
            forall k | 0 <= k < j + 1 ensures !events[k].ReceiveError? {
              if k > 0 { assert events[k] == events[1..][k - 1]; }
            }
          }
        }
      }
    }
  }

  /**
   * `Poll`: a failed dial or subscription returns before anything is rendered; otherwise the
   * initial pass runs from an empty cache, and a fatal error there exits the process;
   * otherwise the receive loop runs on the cache the initial pass left.
   */
  function PollRun(ts: seq<Template>, connect: Option<string>, initial: seq<Attempt>, events: seq<Event>): (r: Session)
    requires |initial| == |ts| && BatchesFit(|ts|, events)
    ensures connect.Some? ==> r == Session(map[], [], Stopped(SubscriptionError(connect.value)))
    ensures connect.None? ==>
              var first := Primed(map[], ts, initial);
              && first.effects <= r.effects
              && (first.err.Some? <==> r.outcome.Exited?)
              && (first.err.Some? ==> r == Session(first.cache, first.effects, Exited(first.err.value)))
    ensures r.cache.Keys <= Names(ts)
  {
    if connect.Some? then Session(map[], [], Stopped(SubscriptionError(connect.value)))
    else
      var first := Primed(map[], ts, initial);
      KeysWithin(first.cache, Names(ts));
      if first.err.Some? then Session(first.cache, first.effects, Exited(first.err.value))
      else
        var rest := Polled(first.cache, ts, events);
        AgreeOutsideMore(rest.cache, first.cache, Names(ts), Names(ts));
        KeysWithin(rest.cache, Names(ts));
        ChainSession(first.effects, rest)
  }

  /**
   * After a complete initial pass, a message whose batch renders the same outputs (with
   * distinct names) writes nothing but runs every action again.
   */
  lemma ReloadAfterPrimeRunsOnlyActions(ts: seq<Template>, initial: seq<Attempt>, again: seq<Attempt>)
    requires |initial| == |ts| && |again| == |ts| && Distinct(ts)
    requires Primed(map[], ts, initial).err.None?
    requires forall i :: 0 <= i < |ts| ==> again[i].render == initial[i].render
    ensures var first := Primed(map[], ts, initial);
            Reloaded(first.cache, ts, again).effects == Actions(ts)
  {
    PrimedCachesEveryOutput(map[], ts, initial);
    ReloadedWhenCached(Primed(map[], ts, initial).cache, ts, again);
  }

  /** The initial pass: one template after the other, exiting on the first fatal error. */
  method Prime(ts: seq<Template>, attempts: seq<Attempt>, host: Host) returns (cache: map<string, string>, err: Option<Error>)
    requires |attempts| == |ts|
    modifies host
    ensures var r := Primed(map[], ts, attempts);
            cache == r.cache && host.log == old(host.log) + r.effects && err == r.err
  {
    cache := map[];
    ghost var done: seq<Effect> := [];
    var i := 0;
    while i < |ts|
      invariant 0 <= i <= |ts|
      invariant host.log == old(host.log) + done
      invariant Primed(map[], ts, attempts) == Chain(done, Primed(cache, ts[i..], attempts[i..]))
    {
      var t, a := ts[i], attempts[i];
      ghost var h := Primed1(cache, t, a);
      PrimedStep(cache, ts, attempts, i);
      if a.render.Failure? {
        assert done + [] == done;
        return cache, Some(RenderError(a.render.error));
      }
      var out := a.render.value;
      if Previous(cache, t.name) != out {
        var written := host.Write(t.target, out, a.writeOk);
        if !written {
          AppendAssoc(old(host.log), done, h.effects);
          return cache, Some(WriteError(t.target));
        }
      }
      cache := cache[t.name := out];
      ghost var rest := Primed(cache, ts[i + 1..], attempts[i + 1..]);
      ChainTwice(done, h.effects, rest);
      AppendAssoc(old(host.log), done, h.effects);
      done := done + h.effects;
      i := i + 1;
    }
    assert ts[i..] == [] && attempts[i..] == [] && done + [] == done;
    return cache, None;
  }

  /** One template of a reload batch (the body of the loop at poller.go:58-78). */
  method ReloadTemplate(t: Template, a: Attempt, previous: map<string, string>, host: Host)
    returns (cache: map<string, string>)
    modifies host
    ensures var r := Reloaded1(previous, t, a);
            cache == r.cache && host.log == old(host.log) + r.effects
  {
    cache := previous;
    if a.render.Failure? {
      return;
    }
    var out := a.render.value;
    var changed := Previous(cache, t.name) != out;
    if changed {
      var written := host.Write(t.target, out, a.writeOk);
      if !written {
        return;
      }
    }
    var ran := host.Run(t.action, a.actionOk);
    if ran {
      cache := cache[t.name := out];
    }
  }

  /** A reload batch: every template in order, skipping (after logging) any that fails. */
  method Reload(ts: seq<Template>, attempts: seq<Attempt>, previous: map<string, string>, host: Host)
    returns (cache: map<string, string>)
    requires |attempts| == |ts|
    modifies host
    ensures var r := Reloaded(previous, ts, attempts);
            cache == r.cache && host.log == old(host.log) + r.effects
  {
    cache := previous;
    ghost var done: seq<Effect> := [];
    var i := 0;
    while i < |ts|
      invariant 0 <= i <= |ts|
      invariant host.log == old(host.log) + done
      invariant Reloaded(previous, ts, attempts).cache == Reloaded(cache, ts[i..], attempts[i..]).cache
      invariant Reloaded(previous, ts, attempts).effects == done + Reloaded(cache, ts[i..], attempts[i..]).effects
    {
      ghost var h := Reloaded1(cache, ts[i], attempts[i]);
      ReloadedStep(cache, ts, attempts, i);
      ghost var logBefore := host.log;
      cache := ReloadTemplate(ts[i], attempts[i], cache, host);
      assert host.log == logBefore + h.effects;
      ghost var rest := Reloaded(cache, ts[i + 1..], attempts[i + 1..]);
      AppendAssoc(done, h.effects, rest.effects);
      AppendAssoc(old(host.log), done, h.effects);
      done := done + h.effects;
      i := i + 1;
    }
    assert ts[i..] == [] && attempts[i..] == [] && done + [] == done;
  }

  /** The receive loop of `Poll`: handle the replies in order until an error reply ends it. */
  method Receive(ts: seq<Template>, events: seq<Event>, previous: map<string, string>, host: Host)
    returns (outcome: Outcome, cache: map<string, string>)
    requires BatchesFit(|ts|, events)
    modifies host
    ensures var r := Polled(previous, ts, events);
            cache == r.cache && host.log == old(host.log) + r.effects && outcome == r.outcome
  {
    cache := previous;
    ghost var done: seq<Effect> := [];
    assert events[0..] == events;
    var i := 0;
    while i < |events|
      invariant 0 <= i <= |events|
      invariant host.log == old(host.log) + done
      invariant BatchesFit(|ts|, events[i..])
      invariant Polled(previous, ts, events) == ChainSession(done, Polled(cache, ts, events[i..]))
    {
      ghost var before := cache;
      var e := events[i];
      assert events[i..][0] == e && events[i..][1..] == events[i + 1..];
      if e.ReceiveError? {
        assert done + [] == done;
        return Stopped(SubscriptionError(e.reason)), cache;
      }
      if e.Message? {
        ghost var b := Reloaded(before, ts, e.batch);
        cache := Reload(ts, e.batch, cache, host);
        AppendAssoc(old(host.log), done, b.effects);
        ghost var rest := Polled(cache, ts, events[i + 1..]);
        assert Polled(before, ts, events[i..]) == ChainSession(b.effects, rest);
        ChainSessionTwice(done, b.effects, rest);
        done := done + b.effects;
      }
      i := i + 1;
    }
    assert events[i..] == [] && done + [] == done;
    return Waiting, cache;
  }

  /**
   * `Poll`, over the connection outcome and the replies the subscription delivers. It
   * returns how the run ended and the cache it ended with.
   */
  method Poll(ts: seq<Template>, connect: Option<string>, initial: seq<Attempt>, events: seq<Event>, host: Host)
    returns (outcome: Outcome, cache: map<string, string>)
    requires |initial| == |ts| && BatchesFit(|ts|, events)
    modifies host
    ensures var r := PollRun(ts, connect, initial, events);
            cache == r.cache && host.log == old(host.log) + r.effects && outcome == r.outcome
  {
    if connect.Some? {
      assert old(host.log) + [] == old(host.log);
      return Stopped(SubscriptionError(connect.value)), map[];
    }
    var err;
    cache, err := Prime(ts, initial, host);
    if err.Some? {
      return Exited(err.value), cache;
    }
    ghost var first := Primed(map[], ts, initial);
    ghost var logBefore := host.log;
    outcome, cache := Receive(ts, events, cache, host);
    AppendAssoc(old(host.log), first.effects, host.log[|logBefore|..]);
  }
}
