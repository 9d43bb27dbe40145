/**
 * The MinilogAirbrake pipeline stage: `setup` configures it and creates the
 * Airbrake client, `format` queues a notice for every log call at or above
 * the threshold, `write` sends the oldest queued notice and `end` drains the
 * queue. The Airbrake client is foreign code; the calls made on it are
 * recorded in `created`, `hookInstalls` and `notified`.
 */
module Minilog {
  import opened Wrappers
  import opened Levels
  import opened Notices

  /** The recognised keys of the `options` object passed to `setup`. */
  datatype Options = Options(
    apiKey: Option<string>,
    apiEnv: Option<string>,
    errorThreshold: ThresholdSetting,
    allowDeliveryToFail: bool,
    handleExceptions: Option<bool>,
    stackTraceLimit: Option<int>)

  /** What `airbrake.createClient(api_key, api_env)` was called with. */
  datatype Client = Client(apiKey: string, apiEnv: Option<string>)

  /** The message `setup` throws when no API key is configured. */
  const MissingApiKey: string := "MinilogAirbrake requires an api_key for Airbrake"

  /** `!options.api_key` is false: the key is present and not empty. */
  predicate HasApiKey(options: Options) {
    options.apiKey.Some? && options.apiKey.value != ""
  }

  class MinilogAirbrake {
    /** `options.errorThreshold` after resolution. */
    var errorThreshold: int
    /** `options.allowDeliveryToFail`. */
    var allowDeliveryToFail: bool
    /** `options.stackTraceLimit`. */
    var stackTraceLimit: Option<int>
    /** The queue of notices not yet sent, front first. */
    var errors: seq<Notice>
    /** `this.airbrake`: the client created by the last successful `setup`. */
    var client: Option<Client>
    /** Every `createClient` call made by `setup`, in order. */
    var created: seq<Client>
    /** Number of `handleExceptions()` calls made on the client. */
    var hookInstalls: nat
    /** Every `notify` call made on the client, in order. */
    var notified: seq<Delivery>

    /** A configured instance has an Airbrake client to send to. */
    predicate Valid()
      reads this
    {
      client.Some?
    }

    /** The object before its first `setup`. */
    constructor Unconfigured()
      ensures errors == [] && client == None && created == [] && hookInstalls == 0 && notified == []
      ensures errorThreshold == DefaultThreshold && !allowDeliveryToFail && stackTraceLimit == None
    {
      errorThreshold, allowDeliveryToFail, stackTraceLimit := DefaultThreshold, false, None;
      errors, client, created, hookInstalls, notified := [], None, [], 0, [];
    }

    /**
     * `MinilogAirbrake(options)`: a new instance configured by `setup`, or the
     * error `setup` throws.
     */
    static method Create(options: Options) returns (r: Result<MinilogAirbrake, string>)
      requires Supported(options.errorThreshold)
      ensures r.Failure? <==> !HasApiKey(options)
      ensures r.Failure? ==> r.error == MissingApiKey
      ensures r.Success? ==> fresh(r.value) && r.value.Valid()
      ensures r.Success? ==> r.value.errors == [] && r.value.notified == []
      ensures r.Success? ==> r.value.client == Some(Client(options.apiKey.value, options.apiEnv))
      ensures r.Success? ==> r.value.created == [Client(options.apiKey.value, options.apiEnv)]
      ensures r.Success? ==> r.value.hookInstalls == (if options.handleExceptions == Some(false) then 0 else 1)
      ensures r.Success? ==> r.value.errorThreshold == ResolveThreshold(options.errorThreshold)
      ensures r.Success? ==> r.value.allowDeliveryToFail == options.allowDeliveryToFail
      ensures r.Success? ==> r.value.stackTraceLimit == options.stackTraceLimit
    {
      var inst := new MinilogAirbrake.Unconfigured();
      var outcome := inst.Setup(options);
      if outcome.Fail? {
        return Failure(outcome.error);
      }
      return Success(inst);
    }

    /**
     * `setup(options)`. The queue is emptied and the options are stored even
     * when the call then throws for a missing API key; only a call that does
     * not throw creates a client, and it installs the exception hook unless
     * `handleExceptions` is exactly `false`.
     */
    method Setup(options: Options) returns (outcome: Outcome<string>)
      requires Supported(options.errorThreshold)
      modifies this
      ensures errors == []
      ensures errorThreshold == ResolveThreshold(options.errorThreshold)
      ensures allowDeliveryToFail == options.allowDeliveryToFail
      ensures stackTraceLimit == options.stackTraceLimit
      ensures notified == old(notified)
      ensures outcome == if HasApiKey(options) then Pass else Fail(MissingApiKey)
      ensures outcome.Fail? ==> client == old(client) && created == old(created)
      ensures outcome.Fail? ==> hookInstalls == old(hookInstalls)
      ensures outcome.Pass? ==> client == Some(Client(options.apiKey.value, options.apiEnv))
      ensures outcome.Pass? ==> created == old(created) + [Client(options.apiKey.value, options.apiEnv)]
      ensures outcome.Pass? ==>
        hookInstalls == old(hookInstalls) + (if options.handleExceptions == Some(false) then 0 else 1)
      ensures old(Valid()) ==> Valid()
    {
      allowDeliveryToFail, stackTraceLimit := options.allowDeliveryToFail, options.stackTraceLimit;
      errors := [];
      errorThreshold := ResolveThreshold(options.errorThreshold);
      if !HasApiKey(options) {
        return Fail(MissingApiKey);
      }
      var made := Client(options.apiKey.value, options.apiEnv);
      client, created := Some(made), created + [made];
      if options.handleExceptions != Some(false) {
        hookInstalls := hookInstalls + 1;
      }
      outcome := Pass;
    }

    /**
     * `format(name, level, args)`. A call below the threshold returns `false`
     * (here `None`) and queues nothing; any other call, an unknown level
     * included, appends one notice at the back of the queue and returns
     * `name`. `stringify` is `JSON.stringify` and `capture` the runtime's
     * stack capture for a given frame limit.
     */
    method Format(name: string, level: string, args: seq<Value>,
                  stringify: seq<Value> -> string, capture: int -> string) returns (r: Option<string>)
      modifies this`errors
      ensures r.None? <==> !Reports(errorThreshold, level)
      ensures r.None? ==> errors == old(errors)
      ensures r.Some? ==> r == Some(name)
      ensures r.Some? ==>
        errors == old(errors) + [MakeNotice(name, level, args, stringify, capture(StackTraceLimit(stackTraceLimit)))]
      ensures r.Some? && (stackTraceLimit == None || stackTraceLimit == Some(0)) ==>
        errors[|errors| - 1].stack == capture(20)
      ensures r.Some? && stackTraceLimit.Some? && stackTraceLimit.value != 0 ==>
        errors[|errors| - 1].stack == capture(stackTraceLimit.value)
    {
      if !Reports(errorThreshold, level) {
        return None;
      }
      var stack := capture(StackTraceLimit(stackTraceLimit));
      errors := errors + [MakeNotice(name, level, args, stringify, stack)];
      r := Some(name);
    }

    /**
     * `write()`. A non-empty queue loses its front notice, which is sent
     * once, with a no-op callback unless delivery is allowed to fail; an
     * empty queue sends nothing and needs no client.
     */
    method Write()
      requires errors != [] ==> Valid()
      modifies this`errors, this`notified
      ensures old(errors) == [] ==> errors == [] && notified == old(notified)
      ensures old(errors) != [] ==> errors == old(errors)[1..]
      ensures old(errors) != [] ==>
        notified == old(notified) + [Delivery(old(errors)[0], !allowDeliveryToFail)]
    {
      if |errors| > 0 {
        var front := errors[0];
        errors := errors[1..];
        notified := notified + [Delivery(front, !allowDeliveryToFail)];
      }
    }

    /**
     * `end()`. Calls `write` until the queue is empty, so every queued notice
     * is sent exactly once, front first.
     */
    method End()
      requires errors != [] ==> Valid()
      modifies this`errors, this`notified
      ensures errors == []
      ensures notified == old(notified) + Deliveries(old(errors), allowDeliveryToFail)
    {
      while |errors| > 0
        invariant errors != [] ==> Valid()
        invariant notified + Deliveries(errors, allowDeliveryToFail)
               == old(notified) + Deliveries(old(errors), allowDeliveryToFail)
        decreases |errors|
      {
        SendFront(notified, errors, allowDeliveryToFail);
        Write();
      }
    }
  }
}
