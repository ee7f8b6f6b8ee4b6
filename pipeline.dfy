/**
  The per-message decision of the MQTT-to-HTTP telemetry bridge, as a pure
  function of the rate-limit state and the message's inputs: decode, check the
  `temperature` field, apply the 5-second cooldown, build the POST body and
  classify the POST's result. The stateful bridge (TelemetryBridge) is proved
  to follow this function step by step.
 */
module Pipeline {
  import opened Wrappers
  import opened Json
  import opened Clock

  /** The fixed cooldown between two forwards, in seconds. */
  const MinInterval: real := 5.0

  /** The topic the bridge subscribes to: `f"{BASE_TOPIC}/readings"`. */
  function Topic(baseTopic: string): (t: string)
    ensures |t| == |baseTopic| + 9 && t[..|baseTopic|] == baseTopic && t[|baseTopic|..] == "/readings"
  {
    baseTopic + "/readings"
  }

  /** An inbound MQTT payload: either it decodes (UTF-8, then JSON) to a value, or it does not. */
  datatype Payload = Undecodable | Decoded(json: Value)

  /** Why a message was dropped before the cooldown. */
  datatype Drop =
    | Malformed           // bad UTF-8 or bad JSON: raised inside the try, caught
    | NotAnObject         // the JSON is not an object, so `.get` raises; caught
    | MissingTemperature  // `temperature` absent or JSON null

  /** What `requests.post` gave back: a response with its status code, or a raised exception. */
  datatype HttpResult = Status(code: int) | TransportError

  /** How the single POST attempt ended, as the bridge logs it. */
  datatype Delivery = Stored | Rejected(code: int) | Unreachable

  datatype Outcome =
    | Dropped(reason: Drop)
    | RateLimited
    | Forwarded(body: Value, delivery: Delivery)

  /** The temperature the bridge will forward, or why the message is dropped. */
  function Temperature(p: Payload): (r: Result<Value, Drop>)
    ensures r.Success? ==>
      p.Decoded? && p.json.Object? && Get(p.json.members, "temperature") == Some(r.value) && r.value != Null
    ensures (p.Decoded? && p.json.Object? && Get(p.json.members, "temperature").Some? &&
             Get(p.json.members, "temperature").value != Null)
      ==> r == Success(Get(p.json.members, "temperature").value)
    ensures r == Failure(MissingTemperature) <==>
      p.Decoded? && p.json.Object? &&
      (Get(p.json.members, "temperature") == None || Get(p.json.members, "temperature") == Some(Null))
    ensures r == Failure(Malformed) <==> p.Undecodable?
    ensures r == Failure(NotAnObject) <==> p.Decoded? && !p.json.Object?
  {
    match p
    case Undecodable => Failure(Malformed)
    case Decoded(v) =>
      if !v.Object? then Failure(NotAnObject)
      else match Get(v.members, "temperature")
        case None => Failure(MissingTemperature)
        case Some(t) => if t == Null then Failure(MissingTemperature) else Success(t)
  }

  /**
    The cooldown window is open exactly when the skip test
    `current_time - last_sent_time < 5` fails.
   */
  predicate WindowOpen(last: real, now: real): (open: bool)
    ensures open <==> !(now - last < 5.0)
  {
    now - last >= MinInterval
  }

  /**
    The JSON body of the POST: `{"value": temperature, "unit": "C", "timestamp": ts}`;
    `dict.get` on it gives back each of the three values.
   */
  function Body(temperature: Value, timestamp: string): (b: Value)
    ensures b.Object?
    ensures Get(b.members, "value") == Some(temperature)
    ensures Get(b.members, "unit") == Some(Str("C"))
    ensures Get(b.members, "timestamp") == Some(Str(timestamp))
  {
    var ms := [("value", temperature), ("unit", Str("C")), ("timestamp", Str(timestamp))];
    assert "timestamp"[0] != "value"[0] && "unit"[0] != "value"[0] && "timestamp"[0] != "unit"[0];
    assert Get(ms[..2], "value") == Get(ms[..1], "value");
    Object(ms)
  }

  /** `status_code == 200` is success; anything else, or an exception, is logged as an error. */
  function Classify(h: HttpResult): (d: Delivery)
    ensures d == Stored <==> h == Status(200)
    ensures d.Rejected? <==> h.Status? && h.code != 200
    ensures d.Rejected? ==> d.code == h.code
    ensures d == Unreachable <==> h == TransportError
  {
    match h
    case Status(c) => if c == 200 then Stored else Rejected(c)
    case TransportError => Unreachable
  }

  /**
    One call of `on_message`: given `last_sent_time`, the payload, the clock
    reading `now`, the local time used for the timestamp and what the POST would
    return, the outcome and the new `last_sent_time`.
   */
  function Step(last: real, p: Payload, now: real, local: DateTime, http: HttpResult): (r: (Outcome, real))
    requires Fits(local)
    ensures r.1 == if r.0.Forwarded? then now else last
  {
    match Temperature(p)
    case Failure(why) => (Dropped(why), last)
    case Success(t) =>
      if !WindowOpen(last, now) then (RateLimited, last)
      else (Forwarded(Body(t, Format(local)), Classify(http)), now)
  }

  /** Exactly the messages with a usable temperature and an open window are forwarded. */
  lemma ForwardedIff(last: real, p: Payload, now: real, local: DateTime, http: HttpResult)
    requires Fits(local)
    ensures Step(last, p, now, local, http).0.Forwarded? <==>
      Temperature(p).Success? && now - last >= MinInterval
  {
  }

  /** From the initial `last_sent_time` of 0, the first valid message is forwarded exactly when it arrives at 5 s or later. */
  lemma FirstForward(p: Payload, now: real, local: DateTime, http: HttpResult)
    requires Fits(local) && Temperature(p).Success?
    ensures Step(0.0, p, now, local, http).0.Forwarded? <==> now >= 5.0
    ensures Step(0.0, p, now, local, http).1 == if now >= 5.0 then now else 0.0
  {
  }

  /** Bytes that do not decode, or text that is not JSON, are dropped with no state change. */
  lemma UndecodableDropped(last: real, now: real, local: DateTime, http: HttpResult)
    requires Fits(local)
    ensures Step(last, Undecodable, now, local, http) == (Dropped(Malformed), last)
  {
  }

  /** A JSON value that is not an object (a list, a number, a string) is dropped with no state change. */
  lemma NonObjectDropped(last: real, v: Value, now: real, local: DateTime, http: HttpResult)
    requires Fits(local) && !v.Object?
    ensures Step(last, Decoded(v), now, local, http) == (Dropped(NotAnObject), last)
  {
  }

  /**
    An object with no `temperature`, or whose last `temperature` is null (as the
    dict keeps it, even after an earlier non-null duplicate), is dropped with no
    state change.
   */
  lemma MissingTemperatureDropped(last: real, members: seq<(string, Value)>, now: real, local: DateTime, http: HttpResult)
    requires Fits(local)
    requires Get(members, "temperature") == None || Get(members, "temperature") == Some(Null)
    ensures Step(last, Decoded(Object(members)), now, local, http) == (Dropped(MissingTemperature), last)
  {
  }

  /**
    Any non-null temperature is forwarded as it is, including `0` and `false`
    (the test is `is None`, not falsiness): a valid message whose window is open
    yields exactly one forward whose body carries that value.
   */
  lemma TemperaturePassedThrough(last: real, members: seq<(string, Value)>, v: Value,
                                                   now: real, local: DateTime, http: HttpResult)
    requires Fits(local) && v != Null && now - last >= MinInterval
    requires Get(members, "temperature") == Some(v)
    ensures Step(last, Decoded(Object(members)), now, local, http) ==
      (Forwarded(Body(v, Format(local)), Classify(http)), now)
  {
  }

  /** For instance `{"temperature": 21.0, "id": 1}`: the temperature need not be the last member. */
  lemma {:induction false} OrdinaryReadingForwarded(last: real, now: real, local: DateTime, http: HttpResult)
    requires Fits(local) && now - last >= MinInterval
    ensures Step(last, Decoded(Object([("temperature", Number(21.0)), ("id", Number(1.0))])), now, local, http) ==
      (Forwarded(Body(Number(21.0), Format(local)), Classify(http)), now)
  {
    var members := [("temperature", Number(21.0)), ("id", Number(1.0))];
    assert "id"[0] != "temperature"[0];
    assert Get(members[..1], "temperature") == Some(Number(21.0));
    TemperaturePassedThrough(last, members, Number(21.0), now, local, http);
  }

  /** Inside the window a valid message is skipped and `last_sent_time` is left alone. */
  lemma RateLimitedKeepsState(last: real, p: Payload, now: real, local: DateTime, http: HttpResult)
    requires Fits(local) && Temperature(p).Success? && now - last < MinInterval
    ensures Step(last, p, now, local, http) == (RateLimited, last)
  {
  }

  /**
    The window is consumed before the POST: the new `last_sent_time` does not
    depend on what the POST returns, so a non-200 or a raised exception leaves it
    advanced to `now`.
   */
  lemma WindowConsumedBeforePost(last: real, p: Payload, now: real, local: DateTime, h1: HttpResult, h2: HttpResult)
    requires Fits(local)
    ensures Step(last, p, now, local, h1).1 == Step(last, p, now, local, h2).1
    ensures Step(last, p, now, local, h1).0.Forwarded? ==> Step(last, p, now, local, h2).0.Forwarded?
    ensures Step(last, p, now, local, h1).0.Forwarded? ==> Step(last, p, now, local, h1).1 == now
  {
  }

  /**
    The body read back with `dict.get` gives the temperature unchanged, the unit
    "C" and a timestamp that parses back to the local time it was made from.
   */
  lemma {:induction false} BodyReadsBack(temperature: Value, local: DateTime)
    requires Fits(local)
    ensures Get(Body(temperature, Format(local)).members, "value") == Some(temperature)
    ensures Get(Body(temperature, Format(local)).members, "unit") == Some(Str("C"))
    ensures Get(Body(temperature, Format(local)).members, "timestamp") == Some(Str(Format(local)))
    ensures Parse(Format(local)) == Some(local)
  {
    ParseFormat(local);
  }

  /** The body has exactly the keys `value`, `unit`, `timestamp`, in this order. */
  lemma BodyKeys(temperature: Value, timestamp: string)
    ensures Keys(Body(temperature, timestamp).members) == ["value", "unit", "timestamp"]
  {
    var ks := Keys(Body(temperature, timestamp).members);
    assert ks[0] == "value" && ks[1] == "unit" && ks[2] == "timestamp";
  }

  /**
    Three readings on the gate's clock: `last_sent_time` starts at 0, so readings
    at 10, 13 and 16 seconds are forwarded, rate-limited and forwarded; from a
    fresh start a reading at 0 seconds is skipped, since the gate needs a
    5-second gap.
   */
  lemma CooldownScenario(local: DateTime, http: HttpResult)
    requires Fits(local)
    ensures var m1 := Decoded(Object([("temperature", Number(21.0))]));
            var m2 := Decoded(Object([("temperature", Number(22.0))]));
            var m3 := Decoded(Object([("temperature", Number(23.0))]));
            var (o1, s1) := Step(0.0, m1, 10.0, local, http);
            var (o2, s2) := Step(s1, m2, 13.0, local, http);
            var (o3, s3) := Step(s2, m3, 16.0, local, http);
            o1.Forwarded? && o2 == RateLimited && o3.Forwarded? && s3 == 16.0 &&
            Step(0.0, m1, 0.0, local, http) == (RateLimited, 0.0)
  {
  }
}
