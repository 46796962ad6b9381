// What the plugin promises its callers, proved over the transitions of
// module Plugin: merge-with-override, "only this key changes", the event slot,
// refresh idempotence, destroy, and the dispatcher's error rules.

module PluginProperties {
  import opened Values
  import opened Plugin

  /** `n` copies of the same call. */
  function Repeat(c: Invocation, n: nat): (r: seq<Invocation>)
    ensures |r| == n
    ensures forall i :: 0 <= i < n ==> r[i] == c
  {
    if n == 0 then [] else [c] + Repeat(c, n - 1)
  }

  /** `getDefaults` answers the three fixed entries, whatever the store holds,
      and changes nothing. */
  lemma GetDefaultsIgnoresState(v: Variant, st: State, e: ElemId, rest: seq<Value>)
    ensures Step(v, st, [e], Text("getDefaults"), rest) == Outcome(st, Ok(Returned(Obj(Defaults()))))
    ensures Defaults() == map["opt1" := Num(1), "opt2" := Text("opt2_value"), HandlerKey := NoOpHandler]
  {
    assert Resolve(v, Text("getDefaults")) == Some(GetDefaults);
  }

  /** An object, null or a falsy value as the first argument is taken as the
      options of `init`. */
  lemma ObjectOrFalsyIsInit(v: Variant, st: State, e: ElemId, m: Value, rest: seq<Value>)
    requires IsObject(m) || !Truthy(m)
    ensures Step(v, st, [e], m, rest) == Outcome(InitState(st, e, m), Ok(Chain))
  {
    assert ParseName(KeyOf(m)).None? by {
      match m
      case Num(n) =>
        assert KeyOf(m) == "0";
      case _ =>
    }
  }

  /** A string that names no method of this file's table (and is not empty)
      raises UnknownMethod, naming the method, and changes nothing. */
  lemma UnknownNameRejected(v: Variant, st: State, e: ElemId, s: string, rest: seq<Value>)
    requires s != ""
    requires forall n :: n in Methods(v) ==> NameText(n) != s
    ensures Step(v, st, [e], Text(s), rest) ==
      Outcome(st, Err(UnknownMethod("Method " + s + " does not exist on jQuery.myPlugin")))
  {
    assert Resolve(v, Text(s)).None?;
    assert Truthy(Text(s)) && !IsObject(Text(s));
    assert " does not exist on jQuery." + PluginName == " does not exist on jQuery.myPlugin";
    assert UnknownMessage(Text(s)) == "Method " + s + " does not exist on jQuery.myPlugin";
  }

  /** pattern.js has no `refresh`: calling it is an unknown method and
      changes nothing. */
  lemma PatternRejectsRefresh(st: State, e: ElemId, rest: seq<Value>)
    ensures Step(Pattern, st, [e], Text("refresh"), rest) ==
      Outcome(st, Err(UnknownMethod("Method " + "refresh" + " does not exist on jQuery.myPlugin")))
  {
    forall n | n in Methods(Pattern) ensures NameText(n) != "refresh" {
      assert n != Refresh;
    }
    UnknownNameRejected(Pattern, st, e, "refresh", rest);
  }

  /** In jquery.myPlugin.js `refresh` re-runs `init` and returns undefined. */
  lemma FeaturedRefresh(st: State, e: ElemId, rest: seq<Value>)
    ensures Step(Featured, st, [e], Text("refresh"), rest) ==
      Outcome(RefreshState(st, e), Ok(Returned(Undefined)))
  {
    assert Resolve(Featured, Text("refresh")) == Some(Refresh);
  }

  /** The re-entrant calls `elem.myPlugin()` (in refresh) and
      `elem.myPlugin('init')` (in setOption) both perform `init` with no
      options. */
  lemma ReentryIsInit(v: Variant, st: State, e: ElemId)
    ensures Step(v, st, [e], Undefined, []).state == RefreshState(st, e)
    ensures Step(v, st, [e], Text("init"), []).state == RefreshState(st, e)
  {
    ObjectOrFalsyIsInit(v, st, e, Undefined, []);
    assert Resolve(v, Text("init")) == Some(Init);
  }

  /** After `init(opts)` on an element without settings, every option reads
      as given in `opts`, or else as its default; the slot holds the merged
      handler. */
  lemma InitFresh(v: Variant, st: State, e: ElemId, opts: Settings)
    requires e !in st.data
    ensures var after := Step(v, st, [e], Obj(opts), []).state;
      && (forall k :: OptionOf(after, e, k) == Ok(if Lookup(opts, k) != Undefined then Lookup(opts, k) else Lookup(Defaults(), k)))
      && Slot(after, e) == Prefer(opts, Defaults(), HandlerKey)
  {
    ObjectOrFalsyIsInit(v, st, e, Obj(opts), []);
  }

  /** Two `init` calls in a row: the second call's options win, then the
      first call's, and only options neither gave read as defaults. */
  lemma InitTwice(st: State, e: ElemId, a: Settings, b: Settings)
    requires e !in st.data
    ensures var after := InitState(InitState(st, e, Obj(a)), e, Obj(b));
      forall k :: Lookup(after.data[e], k) ==
        if Lookup(b, k) != Undefined then Lookup(b, k)
        else if Lookup(a, k) != Undefined then Lookup(a, k)
        else Lookup(Defaults(), k)
  {
    var first := InitState(st, e, Obj(a));
    var after := InitState(first, e, Obj(b));
    forall k
      ensures Lookup(after.data[e], k) ==
        if Lookup(b, k) != Undefined then Lookup(b, k)
        else if Lookup(a, k) != Undefined then Lookup(a, k)
        else Lookup(Defaults(), k)
    {
      assert Lookup(after.data[e], k) == Prefer(b, first.data[e], k);
      assert Lookup(first.data[e], k) == Prefer(a, Defaults(), k);
    }
  }

  /** The defaults are not reapplied on a later `init`: a value written with
      `setOption` (with or without reinit) survives any `init` whose options
      leave that key undefined. */
  lemma DefaultsNotReapplied(st: State, e: ElemId, k: string, val: Value, reinit: bool, opts: Settings)
    requires e in st.data
    requires Lookup(opts, k) == Undefined
    ensures OptionOf(InitState(SetOptionState(st, e, k, val, reinit), e, Obj(opts)), e, k) == Ok(val)
  {
  }

  /** A named call forwards the remaining arguments: `'init'` merges its first
      forwarded argument, `'getOption'` reads the property that argument names,
      and `'getAllOptions'` answers the stored settings; the read-only calls
      change nothing. */
  lemma NamedCallsRoute(v: Variant, st: State, e: ElemId, rest: seq<Value>)
    ensures Step(v, st, [e], Text("init"), rest) == Outcome(InitState(st, e, Arg(rest, 0)), Ok(Chain))
    ensures e in st.data ==>
      Step(v, st, [e], Text("getOption"), rest) == Outcome(st, Ok(Returned(Lookup(st.data[e], KeyOf(Arg(rest, 0))))))
    ensures e in st.data ==>
      Step(v, st, [e], Text("getAllOptions"), rest) == Outcome(st, Ok(Returned(Obj(st.data[e]))))
  {
    assert Resolve(v, Text("init")) == Some(Init);
    assert Resolve(v, Text("getOption")) == Some(GetOption);
    assert Resolve(v, Text("getAllOptions")) == Some(GetAllOptions);
  }

  /** `setOption(k, val, reinit)` followed by `getOption(k)` answers `val`,
      and every other key reads as before; without reinit the slot is left as it was, with reinit it holds the
      stored onCustomEvent1. */
  lemma SetThenGet(v: Variant, st: State, e: ElemId, k: string, val: Value, reinit: bool)
    requires e in st.data
    ensures var o := Step(v, st, [e], Text("setOption"), [Text(k), val, Bool(reinit)]);
      && o.result == Ok(Returned(Undefined))
      && OptionOf(o.state, e, k) == Ok(val)
      && (forall k' :: k' != k ==> OptionOf(o.state, e, k') == OptionOf(st, e, k'))
      && (!reinit ==> o.state.bound == st.bound)
      && (reinit ==> Slot(o.state, e) == Lookup(o.state.data[e], HandlerKey))
  {
    assert Resolve(v, Text("setOption")) == Some(SetOption);
  }

  /** `setOption` with reinit is the in-place write followed by `refresh`. */
  lemma SetOptionReinitIsRefresh(st: State, e: ElemId, k: string, val: Value)
    requires e in st.data
    ensures SetOptionState(st, e, k, val, true) == RefreshState(SetOptionState(st, e, k, val, false), e)
  {
  }

  /** getOption and setOption raise on an element without settings and change
      nothing; getAllOptions answers undefined. */
  lemma NoSettingsBeforeInit(v: Variant, st: State, e: ElemId, rest: seq<Value>)
    requires e !in st.data
    ensures Step(v, st, [e], Text("getOption"), rest) == Outcome(st, Err(NoSettings))
    ensures Step(v, st, [e], Text("setOption"), rest) == Outcome(st, Err(NoSettings))
    ensures Step(v, st, [e], Text("getAllOptions"), rest) == Outcome(st, Ok(Returned(Undefined)))
  {
    assert Resolve(v, Text("getOption")) == Some(GetOption);
    assert Resolve(v, Text("setOption")) == Some(SetOption);
    assert Resolve(v, Text("getAllOptions")) == Some(GetAllOptions);
  }

  /** `destroy` removes the settings and leaves the slot bound; afterwards
      getOption raises; on an element without settings it changes nothing. */
  lemma DestroyDetaches(v: Variant, st: State, e: ElemId, rest: seq<Value>, k: string)
    ensures var o := Step(v, st, [e], Text("destroy"), rest);
      && o.result == Ok(Chain)
      && o.state.data == st.data - {e}
      && o.state.bound == st.bound
      && OptionOf(o.state, e, k) == Err(NoSettings)
      && (e !in st.data ==> o.state == st)
  {
    assert Resolve(v, Text("destroy")) == Some(Destroy);
  }

  /** `refresh` leaves every option reading as before, and on settings that
      hold no undefined value it leaves the stored settings exactly equal. */
  lemma RefreshKeepsSettings(st: State, e: ElemId)
    requires e in st.data
    ensures forall k :: OptionOf(RefreshState(st, e), e, k) == OptionOf(st, e, k)
    ensures Defined(st.data[e]) ==> RefreshState(st, e).data == st.data
  {
    if Defined(st.data[e]) {
      ExtendNoOptions(st.data[e]);
    }
  }

  /** A second `refresh` changes nothing. */
  lemma RefreshIdempotent(st: State, e: ElemId)
    ensures RefreshState(RefreshState(st, e), e) == RefreshState(st, e)
  {
    var once := RefreshState(st, e);
    var twice := RefreshState(once, e);
    ExtendNoOptions(once.data[e]);
    assert twice.data == once.data;
    assert twice.bound == once.bound;
  }

  /** Any positive number of `refresh` calls in a row leaves the state of one. */
  lemma {:induction false} RefreshRepeated(st: State, e: ElemId, n: nat)
    requires n >= 1
    ensures Run(Featured, st, Repeat(Invocation([e], Text("refresh"), []), n)) == RefreshState(st, e)
    decreases n
  {
    var c := Invocation([e], Text("refresh"), []);
    FeaturedRefresh(st, e, []);
    var calls := Repeat(c, n);
    assert calls[0] == c;
    if n == 1 {
      assert calls[1..] == [];
    } else {
      assert calls[1..] == Repeat(c, n - 1);
      var once := RefreshState(st, e);
      RefreshRepeated(once, e, n - 1);
      RefreshIdempotent(st, e);
    }
  }

  /** A call on a selection other than `[x]` never touches the settings or the
      slot of `x`, however many such calls are made. */
  lemma {:induction false} OtherElementsUntouched(v: Variant, st: State, calls: seq<Invocation>, x: ElemId)
    requires forall i :: 0 <= i < |calls| ==> calls[i].sel != [x]
    ensures var r := Run(v, st, calls);
      && (x in r.data <==> x in st.data)
      && (x in st.data ==> r.data[x] == st.data[x])
      && Slot(r, x) == Slot(st, x)
    decreases |calls|
  {
    if calls != [] {
      var c := calls[0];
      var next := Step(v, st, c.sel, c.callee, c.rest).state;
      if |c.sel| == 1 {
        assert c.sel == [c.sel[0]];
        assert x != c.sel[0];
        assert x in next.data - {c.sel[0]} <==> x in st.data - {c.sel[0]};
        assert x in next.bound - {c.sel[0]} <==> x in st.bound - {c.sel[0]};
      }
      OtherElementsUntouched(v, next, calls[1..], x);
    }
  }
}
