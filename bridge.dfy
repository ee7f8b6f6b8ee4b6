/**
  The MQTT telemetry bridge as the object the two listener scripts
  (Server/main.py and server/main.py) build around their module-level state:
  the process-wide `last_sent_time`, the subscriptions made on the client, and
  a ghost log of every POST issued. `OnConnect` and `OnMessage` are the two
  callbacks; `OnMessage` follows Pipeline.Step exactly.
 */
module TelemetryBridge {
  import opened Wrappers
  import opened Json
  import opened Clock
  import opened Pipeline

  /** Which of the two near-identical listener scripts is running. */
  datatype Script =
    | TimedPost    // Server/main.py: `requests.post(..., timeout=5)`
    | UntimedPost  // server/main.py: `requests.post(...)` with no timeout

  /** The `timeout` argument of the POST, in seconds; `None` waits indefinitely. */
  function PostTimeout(script: Script): (t: Option<nat>)
    ensures t.Some? <==> script == TimedPost
    ensures t.Some? ==> t.value == 5
  {
    if script == TimedPost then Some(5) else None
  }

  /** One POST the bridge issued: when the window was taken, the body, the timeout. */
  datatype Post = Post(time: real, body: Value, timeout: Option<nat>)

  /** The time of the forward before the `i`-th one; 0 (the initial `last_sent_time`) for the first. */
  function Previous(posts: seq<Post>, i: nat): real
    requires i <= |posts|
  {
    if i == 0 then 0.0 else posts[i - 1].time
  }

  /**
    The rate-limit invariant: each POST was issued at least MinInterval after the
    previous one (after 0 for the first), and `last_sent_time` is the time of the
    latest POST, or 0 when there has been none.
   */
  ghost predicate Spaced(posts: seq<Post>, last: real)
  {
    && last == Previous(posts, |posts|)
    && forall i :: 0 <= i < |posts| ==> posts[i].time - Previous(posts, i) >= MinInterval
  }

  /** Any two POSTs `j - i` positions apart are at least `(j - i) * 5` seconds apart. */
  lemma {:induction false} SpacedApart(posts: seq<Post>, last: real, i: nat, j: nat)
    requires Spaced(posts, last) && i <= j < |posts|
    ensures posts[j].time - posts[i].time >= (j - i) as real * MinInterval
    decreases j - i
  {
    if i < j {
      SpacedApart(posts, last, i, j - 1);
      assert posts[j].time - Previous(posts, j) >= MinInterval;
    }
  }

  /** Every POST happened at 5 seconds or later, and `last_sent_time` bounds them all. */
  lemma {:induction false} SpacedBounds(posts: seq<Post>, last: real, i: nat)
    requires Spaced(posts, last) && i < |posts|
    ensures posts[i].time >= (i + 1) as real * MinInterval
    ensures posts[i].time <= last - (|posts| - 1 - i) as real * MinInterval
  {
    if i > 0 {
      SpacedBounds(posts, last, i - 1);
      assert posts[i].time - Previous(posts, i) >= MinInterval;
    } else {
      assert posts[0].time - Previous(posts, 0) >= MinInterval;
    }
    SpacedApart(posts, last, i, |posts| - 1);
  }

  /** A POST at least MinInterval after `last_sent_time` keeps the log spaced, with itself as the latest. */
  lemma {:induction false} SpacedAppend(posts: seq<Post>, last: real, p: Post)
    requires Spaced(posts, last) && p.time - last >= MinInterval
    ensures Spaced(posts + [p], p.time)
  {
    var extended := posts + [p];
    forall i | 0 <= i < |extended|
      ensures extended[i].time - Previous(extended, i) >= MinInterval
    {
      if i < |posts| {
        assert extended[i] == posts[i];
        assert Previous(extended, i) == Previous(posts, i);
      }
    }
  }

  class Bridge {
    const script: Script
    const baseTopic: string
    /** `last_sent_time`: the time the cooldown window was last taken. */
    var lastSentTime: real
    /** The topics `client.subscribe` was called with, in order. */
    var subscriptions: seq<string>
    /** Every POST issued, in order. */
    ghost var posts: seq<Post>

    ghost predicate Valid()
      reads this
    {
      && Spaced(posts, lastSentTime)
      && forall i :: 0 <= i < |posts| ==> posts[i].timeout == PostTimeout(script)
    }

    /** Module load: `last_sent_time = 0`, nothing subscribed, nothing sent. */
    constructor (script: Script, baseTopic: string)
      ensures Valid()
      ensures this.script == script && this.baseTopic == baseTopic
      ensures lastSentTime == 0.0 && subscriptions == [] && posts == []
    {
      this.script := script;
      this.baseTopic := baseTopic;
      lastSentTime := 0.0;
      subscriptions := [];
      posts := [];
    }

    /** `on_connect`: subscribe to `{BASE_TOPIC}/readings` iff the result code is 0. */
    method OnConnect(rc: int)
      requires Valid()
      modifies this`subscriptions
      ensures Valid()
      ensures subscriptions == old(subscriptions) + (if rc == 0 then [Topic(baseTopic)] else [])
    {
      if rc == 0 {
        subscriptions := subscriptions + [Topic(baseTopic)];
      }
    }

    /**
      `on_message`: `now` is `time.time()`, `local` the local time the timestamp
      is printed from, `http` what the single POST returns. The outcome and the
      new `last_sent_time` are those of Pipeline.Step; a POST is logged exactly
      when the message is forwarded, and the rate-limit invariant is kept.
     */
    method OnMessage(msg: Payload, now: real, local: DateTime, http: HttpResult) returns (out: Outcome)
      requires Valid() && Fits(local)
      modifies this`lastSentTime, this`posts
      ensures Valid()
      ensures (out, lastSentTime) == Step(old(lastSentTime), msg, now, local, http)
      ensures posts == old(posts) + if out.Forwarded? then [Post(now, out.body, PostTimeout(script))] else []
    {
      var temperature := Temperature(msg);
      if temperature.Failure? {
        return Dropped(temperature.error);
      }
      if now - lastSentTime < MinInterval {
        return RateLimited;
      }
      SpacedAppend(posts, lastSentTime, Post(now, Body(temperature.value, Format(local)), PostTimeout(script)));
      lastSentTime := now;
      var body := Body(temperature.value, Format(local));
      posts := posts + [Post(now, body, PostTimeout(script))];
      out := Forwarded(body, Classify(http));
    }
  }
}
