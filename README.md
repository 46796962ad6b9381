# myPlugin: per-element option store and method dispatcher

A Dafny model of the jQuery plugin pattern in `featured/jquery.myPlugin.js`
and `featured/pattern.js`. It covers the plugin function `$.fn.myPlugin`,
which dispatches on its first argument, and the methods behind it. Those
methods keep a settings object on every element (`elem.data('myPlugin')`) and
one handler in that element's `onCustomEvent1` event slot.

The two files share one model. `Plugin.Variant` tells them apart:
`Featured` is `jquery.myPlugin.js` and `Pattern` is `pattern.js`. They
differ in two ways:

- `pattern.js` has no `refresh` in its method table, so `'refresh'` is an
  unknown method there.
- Its usage-error message does not name the plugin.

The unused `options` parameter of `pattern.js`'s `destroy` makes no
difference, because forwarded arguments that a method does not read are
ignored.

## Files

- `values.dfy` (module `Values`) holds the JavaScript values an option or
  argument can take, plus the conversions the source relies on:
  - truthiness;
  - `typeof … === 'object'`;
  - `String(v)` as a property name.

  It also holds `$.extend({}, a, b)` as `Extend`. `Extend` merges two option
  objects. Properties of `b` win, and properties whose value is undefined are
  skipped, as `$.extend` does.
- `plugin.dfy` (module `Plugin`) is the plugin as pure transitions of a
  `State`. The state holds the settings map of each element and the handler
  bound in each element's slot. It contains the defaults, `init`,
  `setOption`, `refresh`, `destroy`, the read-only `getOption` and
  `getAllOptions`, and the dispatcher `Step`. `Run` performs a sequence of
  calls.
- `store.dfy` (module `PluginStore`) holds the class `Store`. It has the two
  maps as fields, which its methods update in place the way the source does.
  Each method is proved to perform the matching transition of `Plugin`.
- `properties.dfy` (module `PluginProperties`) holds the lemmas about the
  model:
  - merge with override, and defaults not reapplied;
  - the key a setter names being the only key that changes;
  - the slot after `init`, and `destroy` leaving the slot alone;
  - `refresh` idempotence;
  - the dispatcher's error rules;
  - frame properties for other elements.

Where the two files and their comments disagree, the model follows the code:

- `getAllOptions` on an element without settings returns `undefined`. It
  does not raise: it only reads `elem.data(pluginName)`.
- `getOption` and `setOption` on such an element raise a TypeError:
  `getOption` reads a property of `undefined`, and `setOption` assigns one.
  The model has this as the error `NoSettings`.
- `refresh` returns `undefined`, although its comment promises the jQuery
  object.

## Model

| member | source | states |
|---|---|---|
| Values.Truthy | featured/jquery.myPlugin.js:123 | JavaScript truthiness, used for `if(reinit)` and `!method`: undefined and null are falsy, a boolean is itself, a number is truthy exactly when non-zero, a string exactly when non-empty, and functions and objects are truthy |
| Values.IsObject | featured/jquery.myPlugin.js:185 | `typeof method === 'object'`: holds exactly of objects and of null (the one falsy case); never of undefined, booleans, numbers, strings or functions |
| Values.KeyOf | featured/jquery.myPlugin.js:183 | `String(v)` as a property name: a string names itself; a non-negative number gives its decimal numeral, and a negative one '-' followed by the numeral of its magnitude |
| Values.NumberKeysDistinct | featured/jquery.myPlugin.js:122 | two different numbers used as option keys name two different properties |
| Values.OptionsOf | featured/jquery.myPlugin.js:58 | the properties `$.extend` reads from the options argument: an object's own fields, and none for any other value |
| Values.Copy | featured/jquery.myPlugin.js:58 | copying one source object drops exactly its undefined-valued properties: every property reads as before and none holds undefined |
| Values.Extend | featured/jquery.myPlugin.js:58-60 | `$.extend({}, base, opts)`: an option defined in `opts` reads as in `opts`; any other reads as in `base`; the result holds no undefined value and no key outside the two inputs |
| Values.CopyDefined | featured/pattern.js:35 | merging settings that hold no undefined value gives an equal map (a new object with the same properties) |
| Values.ExtendNoOptions | featured/jquery.myPlugin.js:60 | a merge with no options is the identity on defined settings, and applying it twice equals applying it once |
| Plugin.ParseName | featured/jquery.myPlugin.js:40-150 | the method table's property names map back to their methods; a name maps to a method exactly when it is that method's name |
| Plugin.Methods | featured/pattern.js:13-117 | the two method tables: both hold init, getDefaults, getOption, getAllOptions, setOption and destroy; only jquery.myPlugin.js also holds refresh |
| Plugin.UsageMessage | featured/pattern.js:134 | the usage error of each file: both begin 'You must use this plugin' and end ' with a unique element (at once)'; only jquery.myPlugin.js's (featured/jquery.myPlugin.js:177) is longer, by ' (myPlugin)' |
| Plugin.UnknownMessage | featured/jquery.myPlugin.js:188 | for a string argument, the message is 'Method <name> does not exist on jQuery.myPlugin' |
| Plugin.Defaults | featured/jquery.myPlugin.js:82-90 | `getDefaults`: exactly the keys opt1, opt2 and onCustomEvent1, with 1, 'opt2_value' and the no-op handler |
| Plugin.Rebind | featured/jquery.myPlugin.js:70 | unbind then bind: afterwards the element's slot holds exactly the given handler, or nothing for undefined, and no other element's slot changes |
| Plugin.InitState | featured/jquery.myPlugin.js:55-70 | `init`: without settings, every option reads as given or else as the default; with settings, as given or else as stored (defaults not reapplied); the slot holds the stored onCustomEvent1; other elements are untouched |
| Plugin.SetOptionState | featured/jquery.myPlugin.js:120-126 | `setOption(k, val, reinit)`: key k reads val and every other key reads as before; without reinit the settings are the old map with k updated and the slots are unchanged; with reinit the slot holds the stored onCustomEvent1 |
| Plugin.RefreshState | featured/jquery.myPlugin.js:133-136 | `refresh`: every option of an initialised element reads as before (an uninitialised one reads the defaults), and the slot is rebound to the stored handler |
| Plugin.DestroyState | featured/jquery.myPlugin.js:143-149 | `destroy`: the element's settings are removed, no other settings change, the slots are untouched, and an element without settings is left as it was |
| Plugin.OptionOf | featured/jquery.myPlugin.js:98-101 | `getOption`: raises exactly when the element has no settings; otherwise the stored value, undefined for an option never set |
| Plugin.AllOptions | featured/pattern.js:84-87 | `getAllOptions`: the stored settings object when there is one, undefined otherwise |
| Plugin.Resolve | featured/jquery.myPlugin.js:183 | `methods[method]` finds a method exactly when the argument's property name is the name of a method in this file's table |
| Plugin.Apply | featured/jquery.myPlugin.js:184 | a routed method raises only NoSettings, and then leaves the state unchanged; it never changes another element |
| Plugin.Step | featured/jquery.myPlugin.js:173-191 | the dispatcher: a selection of other than one element raises UsageError and changes nothing; UnknownMethod arises only for a truthy non-object argument naming no method, and changes nothing; nothing but the selected element changes |
| PluginStore.Store.Init | featured/pattern.js:20-50 | in-place `init` (store the merged settings, unbind, bind) leaves the store in the `InitState` of the old store |
| PluginStore.Store.SetOption | featured/pattern.js:96-102 | in-place write into the stored settings, then `init` when reinit: raises NoSettings and changes nothing without settings, else reaches `SetOptionState` |
| PluginStore.Store.Refresh | featured/jquery.myPlugin.js:133-136 | in-place `refresh`, present only in the Featured table, reaches `RefreshState` |
| PluginStore.Store.Destroy | featured/pattern.js:110-116 | in-place `removeData` reaches `DestroyState` |
| PluginStore.Store.Dispatch | featured/pattern.js:130-148 | the dispatcher run against the store returns the result of `Step` and leaves the store in its state |
| PluginProperties.GetDefaultsIgnoresState | featured/pattern.js:57-66 | `getDefaults` answers the same three fixed entries in every state and changes nothing |
| PluginProperties.ObjectOrFalsyIsInit | featured/jquery.myPlugin.js:185-186 | an object, null or falsy first argument (absent included) runs `init` with it as options |
| PluginProperties.UnknownNameRejected | featured/jquery.myPlugin.js:187-188 | a non-empty string naming no method raises UnknownMethod with the message 'Method <name> does not exist on jQuery.myPlugin' and changes nothing |
| PluginProperties.PatternRejectsRefresh | featured/pattern.js:144-146 | in pattern.js, `'refresh'` is an unknown method and changes nothing |
| PluginProperties.FeaturedRefresh | featured/jquery.myPlugin.js:133-136 | in jquery.myPlugin.js, `'refresh'` re-runs `init` with no options and returns undefined |
| PluginProperties.ReentryIsInit | featured/jquery.myPlugin.js:124 | the re-entrant calls `elem.myPlugin()` and `elem.myPlugin('init')` both perform `init` with no options |
| PluginProperties.InitFresh | featured/jquery.myPlugin.js:55-58 | after `init(opts)` on an element without settings, getOption(k) answers opts[k] when defined, else the default; the slot holds the merged handler |
| PluginProperties.InitTwice | featured/jquery.myPlugin.js:59-62 | after init(a) then init(b): b's options win, then a's, and only keys neither gave read as defaults |
| PluginProperties.DefaultsNotReapplied | featured/pattern.js:34-35 | for every initialised element, key, value and reinit flag: a value written by setOption survives any later `init(opts)` whose options leave that key undefined, so the defaults are not merged in again |
| PluginProperties.NamedCallsRoute | featured/jquery.myPlugin.js:183-184 | a named call forwards the remaining arguments: 'init' merges its first forwarded argument; on an element with settings, 'getOption' answers the property that argument names and 'getAllOptions' answers the stored settings, both changing nothing |
| PluginProperties.SetThenGet | featured/pattern.js:96-102 | setOption(k, val, reinit) then getOption(k) answers val, and every other key reads as before; without reinit the slots are unchanged, with reinit the slot holds the stored handler |
| PluginProperties.SetOptionReinitIsRefresh | featured/jquery.myPlugin.js:123-125 | setOption with reinit equals the plain write followed by refresh |
| PluginProperties.NoSettingsBeforeInit | featured/pattern.js:74-87 | before `init`, getOption and setOption raise and change nothing; getAllOptions answers undefined |
| PluginProperties.DestroyDetaches | featured/jquery.myPlugin.js:143-149 | destroy removes only this element's settings, leaves every slot bound, makes getOption raise, and is a no-op without settings |
| PluginProperties.RefreshKeepsSettings | featured/jquery.myPlugin.js:133-136 | refresh leaves every option reading as before; on settings with no undefined value it leaves the stored map equal |
| PluginProperties.RefreshIdempotent | featured/jquery.myPlugin.js:60 | a second refresh changes nothing |
| PluginProperties.RefreshRepeated | featured/jquery.myPlugin.js:133-136 | any positive number of refresh calls in a row leaves the state a single refresh leaves |
| PluginProperties.OtherElementsUntouched | featured/jquery.myPlugin.js:176-189 | no sequence of calls on selections other than [x] changes x's settings or slot |

## Left out

- The error markup that `this.html(...)` writes into the selection, and the
  throwing done by `$.error`. Both errors are results (`UsageError`,
  `UnknownMethod`), and the TypeError of reading or assigning a property
  of missing settings is `NoSettings`.
- Firing the custom event and running handlers. A handler is an opaque
  function value, and only which value occupies the slot is modelled.
- `validate_input` and the `elem.attr("id")` read that feeds it. The function
  is an empty extension point.
- `this.each` over a selection of several elements. The dispatcher rejects
  every selection whose size is not one, so each modelled call works on one
  element.
- Names inherited from `Object.prototype` (`toString`, `constructor`, …).
  JavaScript finds them through `methods[method]` and through
  `settings[opt]`. The model treats them as absent: an unknown method, or an
  undefined option.
- Aliasing. `getAllOptions` returns a snapshot of the settings, where the
  source returns the live object. Later writes that a caller makes through
  that object are not modelled. `setOption` writes into the element's stored
  settings.
- Plugin.Rebind: jQuery's own treatment of a handler value that is not a
  function (null, false, a number) is not modelled. The slot records the
  value as given, and only undefined binds nothing.
- Plugin.Defaults: each call of `getDefaults` creates a new no-op function
  object. The model uses one function value for all of them.
- Values.OptionsOf: a non-empty string passed as the options of `init` would
  be spread by `$.extend` into index-named properties. The model treats it
  as no options. The dispatcher routes only the empty string this way; a
  non-empty string can reach `init` only as an explicit `'init'` argument.
- Arrays, and objects with their own `toString` or `valueOf`, are not values
  of the model. `$(el).myPlugin(['init'])` would look up `methods['init']`
  through the array's string conversion and run `init` with no options; the
  closest model value is an `Obj`, which runs `init` with that object as options.
- Numbers are integers. Fractions, NaN and the infinities, with their string
  forms, are not modelled.
- Values.KeyOf: numbers are unbounded integers in the model, whereas
  JavaScript numbers are exact only up to 2^53, and `String()` writes
  magnitudes of 10^21 and above in exponent form (`String(1e21)` is
  "1e+21"). The model writes the full decimal numeral, so for such numbers
  the property `setOption` and `getOption` name, and the text of the
  unknown-method message, differ from the source.
- Elements are identities with no containment. When a call on several
  elements is rejected, `this.html(...)` replaces their contents. jQuery
  then clears the plugin data and bound handlers of every element removed
  this way. The model does not capture this, so the usage error changes
  nothing there, and `OtherElementsUntouched` speaks only of unrelated
  elements.
- Elements carry no HTML `data-*` attributes. jQuery's `elem.data('myPlugin')`
  falls back to a `data-my-plugin` attribute. With one present, `init` would
  merge onto the attribute's value instead of the defaults, and `getOption`
  after `destroy` would read the attribute instead of raising.
- The slot is assumed to hold only the plugin's handler. Handlers that other
  code binds to `onCustomEvent1` are not modelled, even though `unbind` would
  remove them too.
