/**
 * The notices MinilogAirbrake queues in `format` and hands to the Airbrake
 * client in `write`, and the record of those hand-overs.
 */
module Notices {
  import opened Wrappers

  /** The JavaScript values a log call may carry as arguments. */
  datatype Value =
    | Undefined
    | Null
    | Bool(b: bool)
    | Number(n: int)
    | Str(s: string)
    | Buffer(text: string)
    | Error(message: string)
    | Object(fields: seq<(string, Value)>)
    | Array(items: seq<Value>)

  /** `params` of a notice: the serialised trailing arguments. */
  datatype Params = Params(data: string)

  /** One queued notice `{message, type, component, params, stack}`; `kind` is its `type`. */
  datatype Notice = Notice(message: Value, kind: string, component: string, params: Params, stack: string)

  /** One call `airbrake.notify(notice, cb)`; `withCallback` says whether `cb` was a function. */
  datatype Delivery = Delivery(notice: Notice, withCallback: bool)

  /**
   * The frame limit `format` sets before capturing a trace:
   * `options.stackTraceLimit || 20`.
   */
  function StackTraceLimit(limit: Option<int>): (r: int)
  {
    if limit.Some? && limit.value != 0 then limit.value else 20
  }

  /**
   * The notice `format` pushes for the call `(name, level, args)`. The first
   * argument becomes the message (`undefined` when there is none) and only
   * the remaining ones are serialised into `params.data`.
   */
  function MakeNotice(name: string, level: string, args: seq<Value>,
                      stringify: seq<Value> -> string, stack: string): (r: Notice)
    ensures |args| > 0 ==> r.message == args[0] && r.params.data == stringify(args[1..])
    ensures |args| == 0 ==> r.message == Undefined && r.params.data == stringify([])
    ensures r.kind == level && r.component == name && r.stack == stack
  {
    if |args| == 0 then Notice(Undefined, level, name, Params(stringify([])), stack)
    else Notice(args[0], level, name, Params(stringify(args[1..])), stack)
  }

  /** The payload does not depend on the first argument: replacing it changes only the message. */
  lemma PayloadIgnoresMessage(name: string, level: string, args: seq<Value>, v: Value,
                              stringify: seq<Value> -> string, stack: string)
    requires |args| > 0
    ensures MakeNotice(name, level, [v] + args[1..], stringify, stack)
         == MakeNotice(name, level, args, stringify, stack).(message := v)
  {
  }

  /**
   * The `notify` calls that sending every notice of `queue`, front first,
   * makes; a callback is passed exactly when delivery may not fail.
   */
  function Deliveries(queue: seq<Notice>, allowDeliveryToFail: bool): (d: seq<Delivery>)
    ensures |d| == |queue|
    ensures forall i :: 0 <= i < |queue| ==> d[i].notice == queue[i]
    ensures forall i :: 0 <= i < |queue| ==> d[i].withCallback == !allowDeliveryToFail
  {
    if queue == [] then []
    else [Delivery(queue[0], !allowDeliveryToFail)] + Deliveries(queue[1..], allowDeliveryToFail)
  }

  /** Sending the front notice and then the rest of the queue extends a call log by the queue's calls. */
  lemma SendFront(log: seq<Delivery>, queue: seq<Notice>, allowDeliveryToFail: bool)
    requires queue != []
    ensures log + [Delivery(queue[0], !allowDeliveryToFail)] + Deliveries(queue[1..], allowDeliveryToFail)
         == log + Deliveries(queue, allowDeliveryToFail)
  {
  }

  /** Sending two queues in turn makes the same calls as sending their concatenation. */
  lemma DeliveriesAppend(a: seq<Notice>, b: seq<Notice>, allowDeliveryToFail: bool)
    ensures Deliveries(a + b, allowDeliveryToFail)
         == Deliveries(a, allowDeliveryToFail) + Deliveries(b, allowDeliveryToFail)
  {
  }
}
