/**
 * What pkg/listen.go and pkg/poller.go share: the outcomes the outside world decides
 * (rendering, writing the target, running the action), the record of side effects, the
 * replies of the subscription, and the map of previously applied outputs.
 */
module Engine {
  import opened Wrappers

  /**
   * What the world decides about one execution of one template: the rendered output or the
   * render error, whether writing the target file succeeds, and whether the action succeeds.
   */
  datatype Attempt = Attempt(render: Result<string, string>, writeOk: bool, actionOk: bool)

  /** A side effect on the world: a whole-file write, or a `sh -c` command run. */
  datatype Effect = WriteFile(path: string, content: string) | RunAction(command: string)

  datatype Error =
    | RenderError(reason: string)
    | WriteError(path: string)
    | ActionError(command: string)
    | SubscriptionError(reason: string)

  /** The cache after executing one template or a batch, the effects performed, and the error returned. */
  datatype Applied = Applied(cache: map<string, string>, effects: seq<Effect>, err: Option<Error>)

  /**
   * A reply of the pub/sub connection: a published message (with what the world decides for
   * each template of the batch it triggers), any other reply such as the confirmation of
   * the subscription, or the error that ends the subscription.
   */
  datatype Event = Message(batch: seq<Attempt>) | Notice | ReceiveError(reason: string)

  /**
   * How a run ends: still waiting for the next reply once the given replies are used up,
   * returned with an error, or the process exited through a fatal log.
   */
  datatype Outcome = Waiting | Stopped(err: Error) | Exited(err: Error)

  datatype Session = Session(cache: map<string, string>, effects: seq<Effect>, outcome: Outcome)

  /** Go's `m[key]` on a `map[string]string`: a missing key reads as the empty string. */
  function Previous(cache: map<string, string>, key: string): string {
    if key in cache then cache[key] else ""
  }

  /** `r` with `done` performed before its own effects. */
  function Chain(done: seq<Effect>, r: Applied): Applied {
    Applied(r.cache, done + r.effects, r.err)
  }

  /** `s` with `done` performed before its own effects. */
  function ChainSession(done: seq<Effect>, s: Session): Session {
    Session(s.cache, done + s.effects, s.outcome)
  }

  /** Every message brings one attempt per configured template. */
  ghost predicate BatchesFit(n: nat, events: seq<Event>) {
    forall i | 0 <= i < |events| :: events[i].Message? ==> |events[i].batch| == n
  }

  /** Two caches agree on every key outside `keys`. */
  lemma PreviousOutside(m1: map<string, string>, m2: map<string, string>, keys: set<string>, k: string)
    requires m1 - keys == m2 - keys && k !in keys
    ensures Previous(m1, k) == Previous(m2, k)
  {
    assert k in m1 <==> k in m1 - keys;
    assert k in m2 <==> k in m2 - keys;
    if k in m1 {
      assert m1[k] == (m1 - keys)[k];
      assert m2[k] == (m2 - keys)[k];
    }
  }

  /** Agreement outside a set of keys is kept when the set grows. */
  lemma AgreeOutsideMore(m1: map<string, string>, m2: map<string, string>, small: set<string>, large: set<string>)
    requires m1 - small == m2 - small && small <= large
    ensures m1 - large == m2 - large
  {
    forall k | k !in large
      ensures (k in m1 - large <==> k in m2 - large)
      ensures k in m1 - large ==> (m1 - large)[k] == (m2 - large)[k]
    {
      assert k in m1 - small <==> k in m1;
      assert k in m2 - small <==> k in m2;
      if k in m1 {
        assert (m1 - small)[k] == m1[k];
        assert (m2 - small)[k] == m2[k];
      }
    }
  }

  /** A map that differs from the empty map only on `keys` has no other keys. */
  lemma KeysWithin(m: map<string, string>, keys: set<string>)
    requires m - keys == map[] - keys
    ensures m.Keys <= keys
  {
    var empty: map<string, string> := map[];
    forall k | k in m ensures k in keys {
      assert k in m - keys <==> k !in keys;
      assert k !in empty - keys;
    }
  }

  /** Appending effects is associative. */
  lemma AppendAssoc(a: seq<Effect>, b: seq<Effect>, c: seq<Effect>)
    ensures a + b + c == a + (b + c)
  {
  }

  /** Performing `a` and then `b` before `r` is performing `a + b` before it. */
  lemma ChainTwice(a: seq<Effect>, b: seq<Effect>, r: Applied)
    ensures Chain(a, Chain(b, r)) == Chain(a + b, r)
  {
    assert a + (b + r.effects) == (a + b) + r.effects;
  }

  /** Performing `a` and then `b` before `s` is performing `a + b` before it. */
  lemma ChainSessionTwice(a: seq<Effect>, b: seq<Effect>, s: Session)
    ensures ChainSession(a, ChainSession(b, s)) == ChainSession(a + b, s)
  {
    assert a + (b + s.effects) == (a + b) + s.effects;
  }

  /** `previousTemplateExecutions`: the last applied output of each template, by template name. */
  class RenderCache {
    var entries: map<string, string>

    constructor ()
      ensures entries == map[]
    {
      entries := map[];
    }

    /** The locked read `previousTemplateExecutions[key]`: the stored output, `""` when absent. */
    method Lookup(key: string) returns (value: string)
      ensures key in entries ==> value == entries[key]
      ensures key !in entries ==> value == ""
    {
      value := if key in entries then entries[key] else "";
    }

    /** The locked write `previousTemplateExecutions[key] = value`. */
    method Store(key: string, value: string)
      modifies this
      ensures entries == old(entries)[key := value]
    {
      entries := entries[key := value];
    }
  }

  /**
   * The file system and the shell, as the engine sees them: each write or command either
   * succeeds or fails as the world decides, and `log` records every one attempted, in order.
   */
  class Host {
    ghost var log: seq<Effect>

    constructor ()
      ensures log == []
    {
      log := [];
    }

    /** `ioutil.WriteFile(path, content, 0666)`. */
    method Write(path: string, content: string, outcome: bool) returns (ok: bool)
      modifies this
      ensures ok == outcome
      ensures log == old(log) + [WriteFile(path, content)]
    {
      log := log + [WriteFile(path, content)];
      ok := outcome;
    }

    /** `exec.Command("sh", "-c", command).Run()`. */
    method Run(command: string, outcome: bool) returns (ok: bool)
      modifies this
      ensures ok == outcome
      ensures log == old(log) + [RunAction(command)]
    {
      log := log + [RunAction(command)];
      ok := outcome;
    }
  }
}
