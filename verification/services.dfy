/**
  Helpers shared by the accessories (router.js, accesspoint.js): the abstract
  accessory service, first-match lookup, order-keeping filtering, the button
  configuration rules and the external-integration command table.
 */
module Services {
  import opened Wrappers
  import opened JsValues

  /**
    An accessory service as the reconcilers see it: its `subtype` (the identity
    the framework stores), its configured name, and the last `On` (or sensor)
    value pushed to it, `None` while nothing has been pushed.
   */
  datatype Svc = Svc(subtype: string, name: string, on: Option<bool>)

  /** The index of the first element satisfying `p`, as `Array.prototype.find`/`findIndex` locate it. */
  function FindFirst<T>(xs: seq<T>, p: T -> bool): (r: Option<nat>)
    ensures r.Some? ==> r.value < |xs| && p(xs[r.value])
    ensures r.Some? ==> forall j :: 0 <= j < r.value ==> !p(xs[j])
    ensures r.None? <==> forall j :: 0 <= j < |xs| ==> !p(xs[j])
  {
    if |xs| == 0 then None
    else if p(xs[0]) then Some(0)
    else match FindFirst(xs[1..], p)
      case None => None
      case Some(k) => Some(k + 1)
  }

  /** Elements appended after a match do not change the first match. */
  lemma {:induction false} FindFirstExtend<T>(xs: seq<T>, ys: seq<T>, p: T -> bool)
    requires FindFirst(xs, p).Some?
    ensures FindFirst(xs + ys, p) == FindFirst(xs, p)
    decreases |xs|
  {
    if !p(xs[0]) {
      assert (xs + ys)[1..] == xs[1..] + ys;
      FindFirstExtend(xs[1..], ys, p);
    }
  }

  /** `b` contains the elements of `a` in the same relative order, possibly with others between them. */
  ghost predicate IsSubsequence<T>(a: seq<T>, b: seq<T>)
    decreases |b|
  {
    if |a| == 0 then true
    else if |b| == 0 then false
    else if a[0] == b[0] then IsSubsequence(a[1..], b[1..])
    else IsSubsequence(a, b[1..])
  }

  /** The elements of `xs` that satisfy `p`, in their original order. */
  function Filter<T(!new)>(xs: seq<T>, p: T -> bool): (r: seq<T>)
    ensures forall x :: x in r <==> x in xs && p(x)
    ensures IsSubsequence(r, xs)
    ensures |r| <= |xs|
  {
    if |xs| == 0 then []
    else if p(xs[0]) then [xs[0]] + Filter(xs[1..], p)
    else Filter(xs[1..], p)
  }

  /** The subtypes carried by a list of services. */
  function SubtypeSet(svcs: seq<Svc>): set<string> {
    set s | s in svcs :: s.subtype
  }

  /** No two services of the list share a subtype. */
  predicate DistinctSubtypes(svcs: seq<Svc>) {
    forall i, j :: 0 <= i < j < |svcs| ==> svcs[i].subtype != svcs[j].subtype
  }

  /** The index of the first service whose subtype is `key` (`services.find(s => s.subtype === key)`). */
  function FirstWith(svcs: seq<Svc>, key: string): (r: Option<nat>)
    ensures r.Some? ==> r.value < |svcs| && svcs[r.value].subtype == key
    ensures r.None? <==> key !in SubtypeSet(svcs)
  {
    var r := FindFirst(svcs, (s: Svc) => s.subtype == key);
    if r.None? then
      assert forall s :: s in svcs ==> s.subtype != key by {
        forall s | s in svcs ensures s.subtype != key {
          var j :| 0 <= j < |svcs| && svcs[j] == s;
        }
      }
      r
    else r
  }

  /** The service name rule shared by every accessory: `namePrefix ? "<accessory> <text>" : "<text>"`. */
  function PrefixedName(namePrefix: bool, accessory: string, text: string): string {
    if namePrefix then accessory + " " + text else text
  }

  /** The decimal spelling of a natural number, as a template literal prints it. */
  function DecimalString(n: nat): (r: string)
    ensures |r| >= 1
    ensures forall k :: 0 <= k < |r| ==> '0' <= r[k] <= '9'
  {
    var d := ['0', '1', '2', '3', '4', '5', '6', '7', '8', '9'][n % 10];
    if n < 10 then [d] else DecimalString(n / 10) + [d]
  }

  /**
    How a template literal prints a primitive (`${v}`): a string as itself,
    an integer in decimal with its sign, and the literal words otherwise.
   */
  function Text(j: Json): (r: string)
    ensures j.Str? ==> r == j.s
    ensures j.Num? && j.n >= 0 ==> r == DecimalString(j.n)
    ensures j.Num? && j.n < 0 ==> r == "-" + DecimalString(-j.n)
    ensures j.Num? ==> |r| > 0 && (r[0] == '-' || '0' <= r[0] <= '9')
  {
    match j
    case Undefined => "undefined"
    case Null => "null"
    case Bool(b) => if b then "true" else "false"
    case Num(n) => if n < 0 then "-" + DecimalString(-n) else DecimalString(n)
    case Str(s) => s
  }

  /** One entry of `config.buttons`. */
  datatype ButtonConfig = ButtonConfig(name: Json, displayType: Json, command: Json, namePrefix: Json)

  /**
    `v > 0` on a configuration value, with `undefined`/`null` counting as not
    positive (as `(v ?? 0) > 0` and `undefined > 0` both do). A string operand,
    which JavaScript would convert to a number, is not modelled and counts as
    not positive.
   */
  predicate Positive(v: Json) {
    match v
    case Num(n) => n > 0
    case Bool(b) => b
    case _ => false
  }

  /** `(button.displayType ?? 0) > 0`. */
  predicate ButtonShown(b: ButtonConfig) {
    Positive(b.displayType)
  }

  /** The buttons an accessory keeps: `(config.buttons ?? []).filter(b => (b.displayType ?? 0) > 0)`. */
  function ShownButtons(buttons: seq<ButtonConfig>): (r: seq<ButtonConfig>)
    ensures forall b :: b in r <==> b in buttons && ButtonShown(b)
    ensures IsSubsequence(r, buttons)
  {
    Filter(buttons, ButtonShown)
  }

  /** The service kinds a button or a wireless entry can be published as. */
  datatype ServiceKind = Switch | Outlet | Lightbulb | MotionSensor | OccupancySensor | ContactSensor

  /**
    The button service type table, `['', Outlet, Switch][displayType]` in
    accesspoint.js and `[null, Outlet, Switch][displayType]` in router.js:
    only the numbers 1 and 2 index a type (`[…][true]` is `undefined`).
   */
  function ButtonKind(b: ButtonConfig): (r: Option<ServiceKind>)
    ensures r.Some? <==> b.displayType == Num(1) || b.displayType == Num(2)
    ensures r == Some(Outlet) <==> b.displayType == Num(1)
  {
    match b.displayType
    case Num(n) => if n == 1 then Some(Outlet) else if n == 2 then Some(Switch) else None
    case _ => None
  }

  /** One `{displayType, namePrefix}` block of the wireless or access-point configuration. */
  datatype Display = Display(displayType: Json, namePrefix: Json)

  /** A block is shown when `displayType > 0`. */
  predicate Shown(d: Display) {
    Positive(d.displayType)
  }

  /** The control service table `[null, Switch, Outlet, Lightbulb][displayType]`. */
  function ControlKind(d: Display): (r: Option<ServiceKind>)
    ensures r.Some? <==> d.displayType in {Num(1), Num(2), Num(3)}
    ensures r.Some? ==> Shown(d)
  {
    match d.displayType
    case Num(n) => if n == 1 then Some(Switch) else if n == 2 then Some(Outlet) else if n == 3 then Some(Lightbulb) else None
    case _ => None
  }

  /** The sensor service table `[null, MotionSensor, OccupancySensor, ContactSensor][displayType]`. */
  function SensorKind(d: Display): (r: Option<ServiceKind>)
    ensures r.Some? <==> d.displayType in {Num(1), Num(2), Num(3)}
    ensures r.Some? ==> Shown(d)
  {
    match d.displayType
    case Num(n) =>
      if n == 1 then Some(MotionSensor) else if n == 2 then Some(OccupancySensor) else if n == 3 then Some(ContactSensor) else None
    case _ => None
  }

  /**
    `button.name || \`Button ${i}\``: any truthy name is kept, and printed
    into the service name as a template literal prints it.
   */
  function ButtonLabel(b: ButtonConfig, i: nat): (r: string)
    ensures b.name.Str? && b.name.s != "" ==> r == b.name.s
    ensures b.name.Num? && b.name.n > 0 ==> r == DecimalString(b.name.n)
    ensures !Truthy(b.name) ==> r == "Button " + DecimalString(i)
  {
    if Truthy(b.name) then Text(b.name) else "Button " + DecimalString(i)
  }

  /** The keys the RESTful and MQTT bridges may set, with the button command each stands for. */
  const IntegrationCommands: map<string, int> := map["SystemReboot" := 0, "NetworkReload" := 1, "WiFiReload" := 2]

  /** What `setOverExternalIntegration` did with one (key, value) pair. */
  datatype Dispatch =
    | Ignored                  // returned false, nothing sent, nothing logged
    | Warned                   // logged an unknown-key warning and returned false
    | Forwarded(command: int)  // called `openWrt.send('button', null, null, command)`

  /** What `setOverExternalIntegration` resolves to: `false`, or the `undefined` that `send` resolves to. */
  function DispatchResult(d: Dispatch): (r: Json)
    ensures r == Bool(false) <==> !d.Forwarded?
    ensures r == Undefined <==> d.Forwarded?
  {
    if d.Forwarded? then Undefined else Bool(false)
  }
}
