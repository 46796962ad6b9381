// The plugin as the source runs it: one store per plugin whose methods update
// the per-element settings and the event slot in place. Each method is proved
// to perform the corresponding transition of module Plugin.

module PluginStore {
  import opened Values
  import opened Plugin

  class Store {
    /** Which copy of the plugin this is; fixes the method table. */
    const variant: Variant
    /** `elem.data('myPlugin')` for every element that has settings. */
    var data: map<ElemId, Settings>
    /** The handler bound to each element's onCustomEvent1 slot. */
    var bound: map<ElemId, Value>

    function Abs(): State
      reads this
    {
      State(data, bound)
    }

    constructor (variant: Variant)
      ensures this.variant == variant
      ensures data == map[] && bound == map[]
    {
      this.variant := variant;
      data := map[];
      bound := map[];
    }

    /** `init(options)`. */
    method Init(e: ElemId, options: Value) returns (r: Reply)
      modifies this
      ensures Abs() == InitState(old(Abs()), e, options)
      ensures r == Chain
    {
      var settings: Settings;
      if e !in data {
        // `elem.myPlugin('getDefaults')`
        settings := Extend(Defaults(), OptionsOf(options));
      } else {
        settings := Extend(data[e], OptionsOf(options));
      }
      data := data[e := settings];
      // unbind, then bind the merged handler
      bound := bound - {e};
      var h := Lookup(settings, HandlerKey);
      if h != Undefined {
        bound := bound[e := h];
      }
      r := Chain;
    }

    /** `setOption(key, val, reinit)`: write in place, then re-run `init`. */
    method SetOption(e: ElemId, key: string, val: Value, reinit: bool) returns (r: Result<Reply>)
      modifies this
      ensures old(e !in data) ==> r == Err(NoSettings) && Abs() == old(Abs())
      ensures old(e in data) ==> r == Ok(Returned(Undefined)) && Abs() == SetOptionState(old(Abs()), e, key, val, reinit)
    {
      if e !in data {
        return Err(NoSettings);
      }
      data := data[e := data[e][key := val]];
      if reinit {
        // `elem.myPlugin('init')` reaches `init` with no options
        var _ := Init(e, Undefined);
      }
      r := Ok(Returned(Undefined));
    }

    /** `refresh` (only jquery.myPlugin.js has it). */
    method Refresh(e: ElemId) returns (r: Reply)
      requires MethodName.Refresh in Methods(variant)
      modifies this
      ensures Abs() == RefreshState(old(Abs()), e)
      ensures r == Returned(Undefined)
    {
      // `elem.myPlugin()` reaches `init` with no options
      var _ := Init(e, Undefined);
      r := Returned(Undefined);
    }

    /** `destroy`: remove the settings; the event slot is not touched. */
    method Destroy(e: ElemId) returns (r: Reply)
      modifies this
      ensures Abs() == DestroyState(old(Abs()), e)
      ensures r == Chain
    {
      data := data - {e};
      r := Chain;
    }

    /** `$.fn.myPlugin(method, rest...)` called on the selection `sel`. */
    method Dispatch(sel: seq<ElemId>, m: Value, rest: seq<Value>) returns (r: Result<Reply>)
      modifies this
      ensures Outcome(Abs(), r) == Step(variant, old(Abs()), sel, m, rest)
    {
      if |sel| != 1 {
        return Err(UsageError(UsageMessage(variant)));
      }
      var e := sel[0];
      match Resolve(variant, m)
      case Some(name) =>
        match name {
          case Init =>
            var c := Init(e, Arg(rest, 0));
            r := Ok(c);
          case GetDefaults =>
            r := Ok(Returned(Obj(Defaults())));
          case GetOption =>
            var v := OptionOf(Abs(), e, KeyOf(Arg(rest, 0)));
            r := if v.Ok? then Ok(Returned(v.value)) else Err(v.error);
          case GetAllOptions =>
            r := Ok(Returned(AllOptions(Abs(), e)));
          case SetOption =>
            r := SetOption(e, KeyOf(Arg(rest, 0)), Arg(rest, 1), Truthy(Arg(rest, 2)));
          case Refresh =>
            var c := Refresh(e);
            r := Ok(c);
          case Destroy =>
            var c := Destroy(e);
            r := Ok(c);
        }
      case None =>
        if IsObject(m) || !Truthy(m) {
          var c := Init(e, m);
          r := Ok(c);
        } else {
          r := Err(UnknownMethod(UnknownMessage(m)));
        }
    }
  }
}
