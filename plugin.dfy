// The myPlugin option store and method dispatcher, as transitions of a pure
// state: the settings attached to each element and the handler occupying each
// element's onCustomEvent1 slot. Both source files are covered; they differ in
// their method table and in the wording of the usage error.

module Plugin {
  import opened Values

  /** An element of the page; the host owns it, the plugin only attaches data. */
  type ElemId = nat

  const PluginName: string := "myPlugin"

  /** The option holding the handler, and the custom event it is bound to. */
  const HandlerKey: string := "onCustomEvent1"

  /** The no-op handler that the defaults supply. */
  const NoOpHandler: Value := Func(0, "function() {\n                }")

  /** Which of the two copies of the pattern is modelled:
      Featured is featured/jquery.myPlugin.js, Pattern is featured/pattern.js. */
  datatype Variant = Featured | Pattern

  datatype MethodName = Init | GetDefaults | GetOption | GetAllOptions | SetOption | Refresh | Destroy

  datatype Error =
    | UsageError(message: string)     // selection is not exactly one element
    | UnknownMethod(message: string)  // a name that is neither a method nor an options argument
    | NoSettings                      // TypeError: reading a property of the missing settings

  datatype Result<T> = Ok(value: T) | Err(error: Error)

  datatype Option<T> = None | Some(value: T)

  /** What a call returns: the selection itself (for chaining) or a plain value. */
  datatype Reply = Chain | Returned(v: Value)

  /** Settings attached to each element (`elem.data('myPlugin')`) and the
      handler bound to each element's onCustomEvent1 slot. */
  datatype State = State(data: map<ElemId, Settings>, bound: map<ElemId, Value>)

  datatype Outcome = Outcome(state: State, result: Result<Reply>)

  /** One call `$(sel).myPlugin(method, rest...)`. */
  datatype Invocation = Invocation(sel: seq<ElemId>, callee: Value, rest: seq<Value>)

  function NameText(m: MethodName): string
  {
    match m
    case Init => "init"
    case GetDefaults => "getDefaults"
    case GetOption => "getOption"
    case GetAllOptions => "getAllOptions"
    case SetOption => "setOption"
    case Refresh => "refresh"
    case Destroy => "destroy"
  }

  /** The method whose property name is `s`, if any. */
  function ParseName(s: string): (r: Option<MethodName>)
    ensures r.Some? ==> NameText(r.value) == s
    ensures forall m :: NameText(m) == s ==> r == Some(m)
  {
    if s == "init" then Some(Init)
    else if s == "getDefaults" then Some(GetDefaults)
    else if s == "getOption" then Some(GetOption)
    else if s == "getAllOptions" then Some(GetAllOptions)
    else if s == "setOption" then Some(SetOption)
    else if s == "refresh" then Some(Refresh)
    else if s == "destroy" then Some(Destroy)
    else None
  }

  /** The keys of the `methods` object of each file. */
  function Methods(v: Variant): (r: set<MethodName>)
    ensures Refresh in r <==> v == Featured
    ensures r - {Refresh} == {Init, GetDefaults, GetOption, GetAllOptions, SetOption, Destroy}
  {
    match v
    case Featured => {Init, GetDefaults, GetOption, GetAllOptions, SetOption, Refresh, Destroy}
    case Pattern => {Init, GetDefaults, GetOption, GetAllOptions, SetOption, Destroy}
  }

  /** The usage error of each file. Both start and end alike; only the
      message of jquery.myPlugin.js names the plugin, in between. */
  function UsageMessage(v: Variant): (r: string)
    ensures |r| == 56 + (if v == Featured then |" (" + PluginName + ")"| else 0)
    ensures r[..24] == "You must use this plugin"
    ensures r[|r| - 32..] == " with a unique element (at once)"
    ensures v == Featured ==> r[24..|r| - 32] == " (" + PluginName + ")"
  {
    match v
    case Featured =>
      var head := "You must use this plugin (" + PluginName + ")";
      var tail := " with a unique element (at once)";
      assert (head + tail)[|head|..] == tail;
      assert (head + tail)[..|head|] == head;
      assert head[24..] == " (" + PluginName + ")";
      head + tail
    case Pattern => "You must use this plugin with a unique element (at once)"
  }

  /** The unknown-method error, naming the attempted method. */
  function UnknownMessage(m: Value): (r: string)
    ensures m.Text? ==> r == "Method " + m.s + " does not exist on jQuery.myPlugin"
  {
    "Method " + KeyOf(m) + " does not exist on jQuery." + PluginName
  }

  /** `getDefaults`: the fixed default options. */
  function Defaults(): (d: Settings)
    ensures Defined(d)
    ensures d.Keys == {"opt1", "opt2", HandlerKey}
    ensures Lookup(d, "opt1") == Num(1) && Lookup(d, "opt2") == Text("opt2_value")
    ensures Lookup(d, HandlerKey) == NoOpHandler
  {
    map["opt1" := Num(1), "opt2" := Text("opt2_value"), HandlerKey := NoOpHandler]
  }

  /** The handler occupying the slot of `e`; undefined when the slot is empty. */
  function Slot(st: State, e: ElemId): Value
  {
    if e in st.bound then st.bound[e] else Undefined
  }

  /** `elem.unbind(HandlerKey).bind(HandlerKey, h)`: the slot is emptied and
      then holds `h`, unless `h` is undefined, which binds nothing. */
  function Rebind(bound: map<ElemId, Value>, e: ElemId, h: Value): (r: map<ElemId, Value>)
    ensures r - {e} == bound - {e}
    ensures h == Undefined ==> e !in r
    ensures h != Undefined ==> e in r && r[e] == h
  {
    var unbound := bound - {e};
    if h == Undefined then unbound else unbound[e := h]
  }

  /** `init(options)` on element `e`: merge the options over the existing
      settings, or over the defaults when there are none, store the result
      and rebind the slot to the merged onCustomEvent1. */
  function InitState(st: State, e: ElemId, options: Value): (r: State)
    ensures e in r.data && Defined(r.data[e])
    ensures e !in st.data ==> forall k :: Lookup(r.data[e], k) == Prefer(OptionsOf(options), Defaults(), k)
    ensures e in st.data ==> forall k :: Lookup(r.data[e], k) == Prefer(OptionsOf(options), st.data[e], k)
    ensures Slot(r, e) == Lookup(r.data[e], HandlerKey)
    ensures r.data - {e} == st.data - {e} && r.bound - {e} == st.bound - {e}
  {
    var base := if e in st.data then st.data[e] else Defaults();
    var settings := Extend(base, OptionsOf(options));
    State(st.data[e := settings], Rebind(st.bound, e, Lookup(settings, HandlerKey)))
  }

  /** `setOption(k, val, reinit)` on an element that has settings: write the
      one property in place, then, when `reinit` is truthy, run `init` with no
      options. */
  function SetOptionState(st: State, e: ElemId, k: string, val: Value, reinit: bool): (r: State)
    requires e in st.data
    ensures e in r.data
    ensures forall k' :: Lookup(r.data[e], k') == if k' == k then val else Lookup(st.data[e], k')
    ensures !reinit ==> r.data[e] == st.data[e][k := val] && r.bound == st.bound
    ensures reinit ==> Slot(r, e) == Lookup(r.data[e], HandlerKey)
    ensures r.data - {e} == st.data - {e} && r.bound - {e} == st.bound - {e}
  {
    var written := State(st.data[e := st.data[e][k := val]], st.bound);
    if reinit then InitState(written, e, Undefined) else written
  }

  /** `refresh`: `init` with no options. */
  function RefreshState(st: State, e: ElemId): (r: State)
    ensures e in r.data && Defined(r.data[e])
    ensures e in st.data ==> forall k :: Lookup(r.data[e], k) == Lookup(st.data[e], k)
    ensures e !in st.data ==> forall k :: Lookup(r.data[e], k) == Lookup(Defaults(), k)
    ensures Slot(r, e) == Lookup(r.data[e], HandlerKey)
    ensures r.data - {e} == st.data - {e} && r.bound - {e} == st.bound - {e}
  {
    InitState(st, e, Undefined)
  }

  /** `destroy`: detach the settings; the slot is left as it is. */
  function DestroyState(st: State, e: ElemId): (r: State)
    ensures e !in r.data && r.data == st.data - {e}
    ensures r.bound == st.bound
    ensures e !in st.data ==> r == st
  {
    State(st.data - {e}, st.bound)
  }

  /** `getOption(key)`: the stored value, undefined for an option never set;
      reading from settings that do not exist raises. */
  function OptionOf(st: State, e: ElemId, key: string): (r: Result<Value>)
    ensures r.Err? <==> e !in st.data
    ensures r.Err? ==> r.error == NoSettings
    ensures r.Ok? ==> r.value == Lookup(st.data[e], key)
  {
    if e in st.data then Ok(Lookup(st.data[e], key)) else Err(NoSettings)
  }

  /** `getAllOptions`: the settings object, or undefined before `init`
      (a snapshot of the stored object). */
  function AllOptions(st: State, e: ElemId): (v: Value)
    ensures v.Obj? <==> e in st.data
    ensures v.Obj? ==> v.fields == st.data[e]
    ensures !v.Obj? ==> v == Undefined
  {
    if e in st.data then Obj(st.data[e]) else Undefined
  }

  /** The i-th forwarded argument; a missing one is undefined. */
  function Arg(rest: seq<Value>, i: nat): Value
  {
    if i < |rest| then rest[i] else Undefined
  }

  /** `methods[method]`: the method the argument names in this file's table. */
  function Resolve(v: Variant, m: Value): (r: Option<MethodName>)
    ensures r.Some? ==> r.value in Methods(v) && KeyOf(m) == NameText(r.value)
    ensures r.None? ==> forall n :: n in Methods(v) ==> KeyOf(m) != NameText(n)
  {
    match ParseName(KeyOf(m))
    case Some(n) => if n in Methods(v) then Some(n) else None
    case None => None
  }

  /** `methods[name].apply(elem, rest)` on the single element `e`. */
  function Apply(st: State, e: ElemId, name: MethodName, rest: seq<Value>): (o: Outcome)
    ensures o.result.Err? ==> o.state == st && o.result.error == NoSettings
    ensures o.state.data - {e} == st.data - {e} && o.state.bound - {e} == st.bound - {e}
  {
    match name
    case Init => Outcome(InitState(st, e, Arg(rest, 0)), Ok(Chain))
    case GetDefaults => Outcome(st, Ok(Returned(Obj(Defaults()))))
    case GetOption =>
      var r := OptionOf(st, e, KeyOf(Arg(rest, 0)));
      if r.Ok? then Outcome(st, Ok(Returned(r.value))) else Outcome(st, Err(r.error))
    case GetAllOptions => Outcome(st, Ok(Returned(AllOptions(st, e))))
    case SetOption =>
      if e in st.data then
        Outcome(SetOptionState(st, e, KeyOf(Arg(rest, 0)), Arg(rest, 1), Truthy(Arg(rest, 2))), Ok(Returned(Undefined)))
      else Outcome(st, Err(NoSettings))
    case Refresh => Outcome(RefreshState(st, e), Ok(Returned(Undefined)))
    case Destroy => Outcome(DestroyState(st, e), Ok(Chain))
  }

  /** `$.fn.myPlugin`: reject a selection of other than one element, route a
      known method name, treat an object or a falsy argument as the options
      of `init`, and reject anything else as an unknown method. */
  function Step(v: Variant, st: State, sel: seq<ElemId>, m: Value, rest: seq<Value>): (o: Outcome)
    ensures |sel| != 1 ==> o == Outcome(st, Err(UsageError(UsageMessage(v))))
    ensures o.result.Err? && o.result.error.UnknownMethod? ==>
      o.state == st && Resolve(v, m).None? && Truthy(m) && !IsObject(m)
    ensures |sel| == 1 ==> o.state.data - {sel[0]} == st.data - {sel[0]} && o.state.bound - {sel[0]} == st.bound - {sel[0]}
  {
    if |sel| != 1 then Outcome(st, Err(UsageError(UsageMessage(v))))
    else
      match Resolve(v, m)
      case Some(name) => Apply(st, sel[0], name, rest)
      case None =>
        if IsObject(m) || !Truthy(m) then Outcome(InitState(st, sel[0], m), Ok(Chain))
        else Outcome(st, Err(UnknownMethod(UnknownMessage(m))))
  }

  /** The state after a sequence of calls; a call that raises leaves the state
      as it found it and the next call proceeds. */
  function Run(v: Variant, st: State, calls: seq<Invocation>): State
    decreases |calls|
  {
    if calls == [] then st
    else
      var c := calls[0];
      Run(v, Step(v, st, c.sel, c.callee, c.rest).state, calls[1..])
  }
}
