/**
 * The resource events a controller causes, and the discipline they must
 * follow: a blob URL is minted once together with its worker, requests are
 * posted only to a running worker, a worker is terminated once, and its URL
 * is revoked once and only after the termination.
 */
module ResourceLog {
  import opened Types

  datatype Event =
    | Create(url: nat, program: string)                            // URL.createObjectURL + new Worker(url)
    | Post(url: nat, data: seq<seq<Value>>, transfer: seq<Value>)  // worker.postMessage(data, transfer)
    | Terminate(url: nat)                                          // worker.terminate()
    | Revoke(url: nat)                                             // URL.revokeObjectURL(url)

  /** Where a URL is in its lifecycle. */
  datatype Phase = Live | Stopped | Revoked

  /** The effect of one event on the phases of all URLs, or None when the event is out of order. */
  function Step(m: map<nat, Phase>, e: Event): Option<map<nat, Phase>> {
    match e
    case Create(u, _) => if u in m then None else Some(m[u := Live])
    case Post(u, _, _) => if u in m && m[u] == Live then Some(m) else None
    case Terminate(u) => if u in m && m[u] == Live then Some(m[u := Stopped]) else None
    case Revoke(u) => if u in m && m[u] == Stopped then Some(m[u := Revoked]) else None
  }

  /** Replays a log from no URLs at all. */
  function Run(log: seq<Event>): Option<map<nat, Phase>>
    decreases |log|
  {
    if log == [] then Some(map[])
    else match Run(log[..|log| - 1])
      case None => None
      case Some(m) => Step(m, log[|log| - 1])
  }

  /** The URLs whose worker is running. */
  function LiveUrls(m: map<nat, Phase>): set<nat> {
    set u | u in m && m[u] == Live
  }

  /** Minting a new URL adds it to the live ones. */
  lemma LiveAfterCreate(m: map<nat, Phase>, u: nat)
    requires u !in m
    ensures LiveUrls(m[u := Live]) == LiveUrls(m) + {u}
  {}

  /** Revoking a URL removes it from the live ones. */
  lemma LiveAfterRevoke(m: map<nat, Phase>, u: nat)
    ensures LiveUrls(m[u := Revoked]) == LiveUrls(m) - {u}
  {}

  /**
   * What a controller keeps track of: its log replays to `phase`, every URL
   * was minted below `next`, and the live URLs are exactly the `held` ones
   * and the `orphans`, which are apart.
   */
  ghost predicate Tracked(log: seq<Event>, phase: map<nat, Phase>, next: nat, held: set<nat>, orphans: set<nat>) {
    Run(log) == Some(phase)
    && (forall u :: u in phase ==> u < next)
    && LiveUrls(phase) == held + orphans
    && held !! orphans
  }

  /** Minting the next URL makes it the only held one; what was held before becomes orphaned. */
  lemma TrackedCreate(log: seq<Event>, phase: map<nat, Phase>, next: nat, held: set<nat>, orphans: set<nat>, text: string)
    requires Tracked(log, phase, next, held, orphans)
    ensures Tracked(log + [Create(next, text)], phase[next := Live], next + 1, {next}, orphans + held)
  {
    var m := phase[next := Live];
    assert next !in phase;
    assert Run(log + [Create(next, text)]) == Some(m) by {
      RunSnoc(log, Create(next, text));
      assert Step(phase, Create(next, text)) == Some(m);
    }
    assert next !in LiveUrls(phase);
    LiveAfterCreate(phase, next);
    assert LiveUrls(m) == {next} + (orphans + held);
  }

  /** Tearing down the held worker leaves nothing held and the orphans as they were. */
  lemma TrackedTeardown(log: seq<Event>, phase: map<nat, Phase>, next: nat, u: nat, orphans: set<nat>)
    requires Tracked(log, phase, next, {u}, orphans)
    ensures Tracked(log + Teardown(u), phase[u := Revoked], next, {}, orphans)
  {
    assert u in LiveUrls(phase);
    RunTeardown(log, phase, u);
    LiveAfterRevoke(phase, u);
  }

  /** Posting to a held worker changes no phase. */
  lemma TrackedPost(log: seq<Event>, phase: map<nat, Phase>, next: nat, held: set<nat>, orphans: set<nat>,
                    u: nat, data: seq<seq<Value>>, transfer: seq<Value>)
    requires Tracked(log, phase, next, held, orphans) && u in held
    ensures Tracked(log + [Post(u, data, transfer)], phase, next, held, orphans)
  {
    assert u in LiveUrls(phase);
    RunSnoc(log, Post(u, data, transfer));
  }

  predicate WellFormed(log: seq<Event>) {
    Run(log).Some?
  }

  /** The event that tears down the worker of `u`: terminate, then revoke. */
  function Teardown(u: nat): seq<Event> {
    [Terminate(u), Revoke(u)]
  }

  lemma {:induction false} RunSnoc(log: seq<Event>, e: Event)
    ensures Run(log + [e]) == if Run(log).Some? then Step(Run(log).value, e) else None
  {
    assert (log + [e])[..|log|] == log;
  }

  /** Tearing down a live worker moves its URL to Revoked and touches nothing else. */
  lemma RunTeardown(log: seq<Event>, m: map<nat, Phase>, u: nat)
    requires Run(log) == Some(m) && u in m && m[u] == Live
    ensures Run(log + Teardown(u)) == Some(m[u := Revoked])
  {
    RunSnoc(log, Terminate(u));
    assert Run(log + [Terminate(u)]) == Some(m[u := Stopped]);
    RunSnoc(log + [Terminate(u)], Revoke(u));
    assert m[u := Stopped][u := Revoked] == m[u := Revoked];
    assert log + [Terminate(u)] + [Revoke(u)] == log + Teardown(u);
  }

  lemma {:induction false} PrefixWellFormed(log: seq<Event>, k: nat)
    requires WellFormed(log) && k <= |log|
    ensures WellFormed(log[..k])
    decreases |log| - k
  {
    if k < |log| {
      var init := log[..|log| - 1];
      assert Run(init).Some?;
      assert init[..k] == log[..k];
      PrefixWellFormed(init, k);
    } else {
      assert log[..k] == log;
    }
  }

  /** A URL that is Stopped has been terminated at some earlier event. */
  lemma {:induction false} StoppedWasTerminated(log: seq<Event>, u: nat)
    requires WellFormed(log) && u in Run(log).value && Run(log).value[u] == Stopped
    ensures exists j :: 0 <= j < |log| && log[j] == Terminate(u)
    decreases |log|
  {
    var init := log[..|log| - 1];
    var m := Run(init).value;
    if log[|log| - 1] == Terminate(u) {
      assert log[|log| - 1] == Terminate(u);
    } else {
      assert u in m && m[u] == Stopped;
      StoppedWasTerminated(init, u);
      var j :| 0 <= j < |init| && init[j] == Terminate(u);
      assert log[j] == Terminate(u);
    }
  }

  /** Once revoked, a URL stays revoked. */
  lemma {:induction false} RevokedStays(log: seq<Event>, i: nat, u: nat)
    requires WellFormed(log) && i <= |log| && WellFormed(log[..i])
    requires u in Run(log[..i]).value && Run(log[..i]).value[u] == Revoked
    ensures u in Run(log).value && Run(log).value[u] == Revoked
    decreases |log| - i
  {
    if i < |log| {
      var init := log[..|log| - 1];
      assert init[..i] == log[..i];
      PrefixWellFormed(log, |log| - 1);
      RevokedStays(init, i, u);
    } else {
      assert log[..i] == log;
    }
  }

  /** Every revocation of a URL comes after a termination of its worker. */
  lemma RevokeFollowsTerminate(log: seq<Event>, i: nat)
    requires WellFormed(log) && i < |log| && log[i].Revoke?
    ensures exists j :: 0 <= j < i && log[j] == Terminate(log[i].url)
  {
    var u := log[i].url;
    PrefixWellFormed(log, i + 1);
    var pre := log[..i + 1];
    assert pre[..i] == log[..i];
    var m := Run(log[..i]).value;
    assert u in m && m[u] == Stopped;
    StoppedWasTerminated(log[..i], u);
    var j :| 0 <= j < i && log[..i][j] == Terminate(u);
    assert log[j] == Terminate(u);
  }

  /** No URL is revoked twice. */
  lemma RevokedAtMostOnce(log: seq<Event>, i: nat, j: nat)
    requires WellFormed(log) && i < j < |log| && log[i].Revoke?
    ensures log[j] != log[i]
  {
    var u := log[i].url;
    PrefixWellFormed(log, i + 1);
    PrefixWellFormed(log, j + 1);
    assert log[..i + 1][..i] == log[..i];
    assert Run(log[..i + 1]).value[u] == Revoked;
    assert log[..j + 1][..i + 1] == log[..i + 1];
    RevokedStays(log[..j], i + 1, u) by {
      PrefixWellFormed(log, j);
      assert log[..j][..i + 1] == log[..i + 1];
    }
    assert log[..j + 1][..j] == log[..j];
  }
}
