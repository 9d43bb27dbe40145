/**
 * The cases of the repository's test suite, replayed against the model.
 * Every scenario starts from the instance the suite builds before each case,
 * `MinilogAirbrake({ api_key: 'test', handleExceptions: false })`, and
 * returns what that case inspects.
 */
module Scenarios {
  import opened Wrappers
  import opened Levels
  import opened Notices
  import opened Minilog

  /** Options with only an API key (and the given exception-hook option). */
  function KeyOnly(key: string, handleExceptions: Option<bool>): Options
  {
    Options(Some(key), None, Unset, false, handleExceptions, None)
  }

  /** The instance built before each case. */
  method TestInstance() returns (inst: MinilogAirbrake)
    ensures fresh(inst) && inst.Valid()
    ensures inst.errors == [] && inst.notified == [] && inst.hookInstalls == 0
    ensures inst.client == Some(Client("test", None)) && inst.created == [Client("test", None)]
    ensures inst.errorThreshold == DefaultThreshold && !inst.allowDeliveryToFail
    ensures inst.stackTraceLimit == None
  {
    var r := MinilogAirbrake.Create(KeyOnly("test", Some(false)));
    inst := r.value;
  }

  /** `setup({ api_key: '' })` throws the missing-key error. */
  method EmptyApiKeyThrows() returns (outcome: Outcome<string>)
    ensures outcome == Fail(MissingApiKey)
  {
    var inst := TestInstance();
    outcome := inst.Setup(KeyOnly("", None));
  }

  /**
   * `setup({ api_key: 'test' })` calls `createClient` exactly once, with key
   * 'test', and installs the hook once.
   */
  method SetupCreatesClient() returns (createdBySetup: seq<Client>, hookInstalls: nat)
    ensures createdBySetup == [Client("test", None)]
    ensures hookInstalls == 1
  {
    var inst := TestInstance();
    var before := |inst.created|;
    var _ := inst.Setup(KeyOnly("test", None));
    createdBySetup, hookInstalls := inst.created[before..], inst.hookInstalls;
  }

  /** `setup({ api_key: 'test', handleExceptions: false })` installs no hook. */
  method SetupWithoutHook() returns (hookInstalls: nat)
    ensures hookInstalls == 0
  {
    var inst := TestInstance();
    var _ := inst.Setup(KeyOnly("test", Some(false)));
    hookInstalls := inst.hookInstalls;
  }

  /** A queued notice is sent once by `write`, with a callback. */
  method WriteSendsQueuedNotice(n: Notice) returns (notified: seq<Delivery>, left: seq<Notice>)
    ensures notified == [Delivery(n, true)]
    ensures left == []
  {
    var inst := TestInstance();
    inst.errors := inst.errors + [n];
    inst.Write();
    notified, left := inst.notified, inst.errors;
  }

  /** `write` on an empty queue sends nothing. */
  method WriteOnEmptyQueue() returns (notified: seq<Delivery>)
    ensures notified == []
  {
    var inst := TestInstance();
    inst.errors := [];
    inst.Write();
    notified := inst.notified;
  }

  /** With `allowDeliveryToFail` set, `write` passes no callback. */
  method WriteWithoutCallback(n: Notice) returns (notified: seq<Delivery>)
    ensures notified == [Delivery(n, false)]
  {
    var inst := TestInstance();
    inst.allowDeliveryToFail := true;
    inst.errors := inst.errors + [n];
    inst.Write();
    notified := inst.notified;
  }

  /** `end` on three queued notices sends three, in queue order, and empties the queue. */
  method EndDrainsQueue(first: Notice, second: Notice, third: Notice)
    returns (notified: seq<Delivery>, left: seq<Notice>)
    ensures notified == [Delivery(first, true), Delivery(second, true), Delivery(third, true)]
    ensures left == []
  {
    var inst := TestInstance();
    inst.errors := [first, second, third];
    inst.End();
    notified, left := inst.notified, inst.errors;
  }

  /** Under a `warn` threshold an `info` call returns `false` and queues nothing. */
  method FormatBelowThreshold(stringify: seq<Value> -> string, capture: int -> string)
    returns (r: Option<string>, queued: nat)
    ensures r == None && queued == 0
  {
    var inst := TestInstance();
    inst.errorThreshold := ErrorLevels["warn"];
    r := inst.Format("name", "info", [Str("message"), Object([("data", Number(1))])], stringify, capture);
    queued := |inst.errors|;
  }

  /** Under a `warn` threshold, `error` and `warn` calls return the name and queue one notice. */
  method FormatAtOrAboveThreshold(level: string, stringify: seq<Value> -> string, capture: int -> string)
    returns (r: Option<string>, queued: nat)
    requires level == "error" || level == "warn"
    ensures r == Some("name") && queued == 1
  {
    var inst := TestInstance();
    inst.errorThreshold := ErrorLevels["warn"];
    r := inst.Format("name", level, [Str("message"), Object([("data", Number(1))])], stringify, capture);
    queued := |inst.errors|;
  }

  /**
   * The queued notice carries the message, the level as its type, the name
   * as its component, the serialised trailing arguments and the captured
   * trace (20 frames, as no limit is configured).
   */
  method FormatBuildsNotice(stringify: seq<Value> -> string, capture: int -> string)
    returns (r: Option<string>, queue: seq<Notice>)
    ensures r == Some("name") && |queue| == 1
    ensures queue[0].message == Str("message")
    ensures queue[0].kind == "warn" && queue[0].component == "name"
    ensures queue[0].params.data == stringify([Object([("data", Buffer("test"))])])
    ensures queue[0].stack == capture(20)
  {
    var inst := TestInstance();
    inst.errorThreshold := ErrorLevels["warn"];
    r := inst.Format("name", "warn", [Str("message"), Object([("data", Buffer("test"))])], stringify, capture);
    queue := inst.errors;
  }

  /**
   * With an error object as second argument the message stays the first
   * argument and the payload is the serialisation of the error object itself:
   * no message is extracted from it.
   */
  method FormatWithErrorArgument(stringify: seq<Value> -> string, capture: int -> string)
    returns (r: Option<string>, queue: seq<Notice>)
    ensures r == Some("name") && |queue| == 1
    ensures queue[0].message == Str("message")
    ensures queue[0].kind == "warn" && queue[0].component == "name"
    ensures queue[0].params.data == stringify([Error("foo")])
  {
    var inst := TestInstance();
    inst.errorThreshold := ErrorLevels["warn"];
    r := inst.Format("name", "warn", [Str("message"), Error("foo")], stringify, capture);
    queue := inst.errors;
  }

  /** A level name missing from the table is reported even under the highest known threshold. */
  method FormatUnknownLevel(stringify: seq<Value> -> string, capture: int -> string)
    returns (r: Option<string>, queued: nat)
    ensures r == Some("name") && queued == 1
  {
    var inst := TestInstance();
    r := inst.Format("name", "fatal", [Str("message")], stringify, capture);
    queued := |inst.errors|;
  }

  /** Two accepted calls followed by `end` send their notices in call order. */
  method FormatThenEnd(stringify: seq<Value> -> string, capture: int -> string)
    returns (notified: seq<Delivery>)
    ensures |notified| == 2
    ensures notified[0].notice.message == Str("first") && notified[1].notice.message == Str("second")
  {
    var inst := TestInstance();
    var _ := inst.Format("name", "error", [Str("first")], stringify, capture);
    var _ := inst.Format("name", "error", [Str("second")], stringify, capture);
    inst.End();
    notified := inst.notified;
  }
}
