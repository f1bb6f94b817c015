# PermissionHelper controller, modelled in Dafny

PermissionHelper is an Android library for runtime permissions. Its controller, `PermissionUtil`, sits between a caller and a headless `PermissionFragment` that talks to the operating system. The controller has two single-slot listener registers: `requestPermissionListener` and `requestInstallAppListener`. Its entry points `request` (two overloads) and `requestInstallApp` check a precondition. When the check fails they log and do nothing. When it passes they store the listener over any earlier one and forward exactly one call to the fragment. The result hooks `requestBack` and `callCanInstallApp` pass a result to the stored listener, or drop it when the slot is empty. `removeListener` empties both slots. `PermissionUtil.Builder` collects texts and flags. Its `build()` fills each text that is still `null` with a fixed default, then constructs the controller. The constructor attaches the controller to the activity's fragment registry, or else the fragment's. It reuses a `PermissionFragment` already registered under the tag `"PermissionUtil"`, creates one if there is none, and always rebinds that fragment to the new controller.

The project has four files:

- `wrappers.dfy` (`Wrappers`): `Option` stands for Java's nullable references. `Text` is a nullable `String`.
- `settings.dfy` (`Settings`): the builder's configuration as a value, the six default strings, and `WithDefaults`, the specification of `build()`'s defaulting step.
- `protocol.dfy` (`Protocol`): the controller's behaviour as a pure function. `Step` takes one input and the two slots. It returns the new slots, the calls forwarded to the adapter, and the emitted events (listener callbacks and log records). `Run` folds `Step` over a trace of inputs, and the trace lemmas prove last-writer-wins, silence after `removeListener`, independence of the two slots, and at most one callback per reported result.
- `permission_util.dfy` (`PermissionHelper`): the imperative model. `PermissionUtil` and `Builder` are classes whose methods update their fields in place. `FragmentManager` is a host's tag registry, a `map` from tag to fragment. `FragmentActivity` and `Fragment` are the two kinds of host. `PermissionFragment` is an abstract sink: it records the calls it receives (`calls`) and the controller it reports to (`owner`). Each controller method is proved against `Protocol.Step`: its new slots, its appended adapter calls and its returned events are exactly what `Step` gives for the old state.

The listener objects are identities (`PermissionListener(id)`, `InstallListener(id)`). A callback into a listener is an event that the method returns. `Log.e` and `Log.d` are `Log` events that carry the source's level and message. Nothing in the model blocks, waits or touches the operating system.

Three behaviours of the code are worth stating outright:

- `build()` writes the defaults into the builder itself, and the controller keeps a reference to that same builder. A setter called after `build()` therefore changes what the controller reads.
- `requestBack` never clears the slot, so every report reaches the stored listener (`Protocol.EveryReportIsDelivered`). `callCanInstallApp` behaves the same way for the install slot (`Protocol.EveryInstallReportIsDelivered`).
- All controllers built on one host share the one adapter registered under the tag, and it reports to the controller attached last (`PermissionHelper.BuildTwiceOnOneHost`).

## Model

| member | source | states |
|---|---|---|
| Settings.Unconfigured | permissionhelper/src/main/java/net/arvin/permissionhelper/PermissionUtil.java:135-161 | a new builder has every text (title included) `null` and every cancelable/show flag `true` |
| Settings.Defaulted | permissionhelper/src/main/java/net/arvin/permissionhelper/PermissionUtil.java:361-363 | `textIsNone` as used by `build()`: a present text (an empty string included) is kept, only an absent one gets the default, and the result is always present |
| Settings.WithDefaults | permissionhelper/src/main/java/net/arvin/permissionhelper/PermissionUtil.java:339-357 | after `build()` each of the six texts that was `null` holds its own documented default, and each that was present is unchanged; `titleText` and all six flags are unchanged; a configuration whose texts are all present is left as it is |
| Settings.WithDefaultsIdempotent | permissionhelper/src/main/java/net/arvin/permissionhelper/PermissionUtil.java:339-357 | applying the defaulting step twice gives what applying it once gives |
| Settings.UnconfiguredDefaults | permissionhelper/src/main/java/net/arvin/permissionhelper/PermissionUtil.java:339-357 | `Builder().build()` yields exactly the documented default strings, with no title and all flags `true` |
| Settings.EmptyTextKept | permissionhelper/src/main/java/net/arvin/permissionhelper/PermissionUtil.java:361-363 | empty strings set for all six texts survive `build()` unchanged, because only `null` counts as unset |
| Protocol.Step | permissionhelper/src/main/java/net/arvin/permissionhelper/PermissionUtil.java:55-104 | per input: at most one adapter call and one event; no adapter call without an adapter; result hooks change no slot and call nothing; each slot is written only by its own entry point or `removeListener`; a callback goes only to the stored listener with the reported values; a result is dropped exactly when its slot is empty, and otherwise delivered as exactly one callback (or `canInstallApp` event) to the stored listener with the reported values |
| Protocol.DetachedEntryIsNoOp | permissionhelper/src/main/java/net/arvin/permissionhelper/PermissionUtil.java:59-93 | with no adapter attached, `request` (both overloads) and `requestInstallApp` change neither slot, call nothing and log the error |
| Protocol.RejectedRequestIsNoOp | permissionhelper/src/main/java/net/arvin/permissionhelper/PermissionUtil.java:64-67 | a `null` or empty permission array leaves both slots unchanged, calls nothing and logs at debug level |
| Protocol.AcceptedRequest | permissionhelper/src/main/java/net/arvin/permissionhelper/PermissionUtil.java:68-69 | an accepted `request` overwrites the permission slot with its listener, keeps the install slot, and forwards exactly one call with the same message and permissions |
| Protocol.RequestOneIsArrayOfOne | permissionhelper/src/main/java/net/arvin/permissionhelper/PermissionUtil.java:55-57 | `request(msg, p, l)` has the same effect as `request(msg, [p], l)` |
| Protocol.AcceptedInstallRequest | permissionhelper/src/main/java/net/arvin/permissionhelper/PermissionUtil.java:91-92 | an attached `requestInstallApp` overwrites only the install slot and forwards one call |
| Protocol.RunAppend | permissionhelper/src/main/java/net/arvin/permissionhelper/PermissionUtil.java:55-104 | running a concatenated trace is running its first part, then its second part from the slots the first part left |
| Protocol.AtMostOneCallbackPerResult | permissionhelper/src/main/java/net/arvin/permissionhelper/PermissionUtil.java:80-99 | over any trace, the number of listener callbacks is at most the number of results the adapter reported |
| Protocol.DetachedRunIsInert | permissionhelper/src/main/java/net/arvin/permissionhelper/PermissionUtil.java:59-93 | over any trace, a controller with no adapter never calls one, and each slot ends as it started or empty |
| Protocol.RemovedListenersHearNothing | permissionhelper/src/main/java/net/arvin/permissionhelper/PermissionUtil.java:101-104 | after `removeListener()`, anywhere in a trace, no later reported result reaches a listener and both slots stay empty |
| Protocol.EmptySlotsStaySilent | permissionhelper/src/main/java/net/arvin/permissionhelper/PermissionUtil.java:80-99 | with both slots empty, any run of reported results emits nothing and changes nothing |
| Protocol.LastWriterWins | permissionhelper/src/main/java/net/arvin/permissionhelper/PermissionUtil.java:68-84 | after an accepted request stores `l`, until the next request or `removeListener`, the slot holds `l` and every permission callback goes to `l`, so the earlier listener is orphaned |
| Protocol.StoredListenerHearsAll | permissionhelper/src/main/java/net/arvin/permissionhelper/PermissionUtil.java:80-84 | while nothing writes the permission slot, it keeps its listener, and every callback goes to that listener |
| Protocol.PermissionFlowKeepsInstallSlot | permissionhelper/src/main/java/net/arvin/permissionhelper/PermissionUtil.java:55-84 | no trace without `requestInstallApp` or `removeListener` changes the install slot |
| Protocol.InstallFlowKeepsPermissionSlot | permissionhelper/src/main/java/net/arvin/permissionhelper/PermissionUtil.java:86-99 | no trace of install requests and install results changes the permission slot |
| Protocol.EveryReportIsDelivered | permissionhelper/src/main/java/net/arvin/permissionhelper/PermissionUtil.java:80-84 | `requestBack` does not clear the slot: `n` reports to a stored listener yield `n` callbacks, in order, each with its own values |
| Protocol.EveryInstallReportIsDelivered | permissionhelper/src/main/java/net/arvin/permissionhelper/PermissionUtil.java:95-99 | `callCanInstallApp` does not clear the slot: `n` install reports to a stored install listener yield `n` `canInstallApp` events, in order, each with its own value |
| PermissionHelper.PermissionUtil.constructor | permissionhelper/src/main/java/net/arvin/permissionhelper/PermissionUtil.java:30-41 | both slots start empty; the activity's registry is preferred over the fragment's; with neither host there is no adapter; otherwise the controller is attached through that registry as `InitFragment` states |
| PermissionHelper.PermissionUtil.InitFragment | permissionhelper/src/main/java/net/arvin/permissionhelper/PermissionUtil.java:43-53 | the fragment registered under the tag is reused, or a fresh one is created and registered; either way it is rebound to this controller, and nothing else in the registry changes |
| PermissionHelper.PermissionUtil.Request | permissionhelper/src/main/java/net/arvin/permissionhelper/PermissionUtil.java:59-70 | the new slots, the returned events and the calls appended to the adapter are those `Step` gives for `request`; the adapter's owner is untouched |
| PermissionHelper.PermissionUtil.RequestOne | permissionhelper/src/main/java/net/arvin/permissionhelper/PermissionUtil.java:55-57 | the same as `Request` for the one-element array, as `Step` gives for the single-permission overload |
| PermissionHelper.PermissionUtil.RequestBack | permissionhelper/src/main/java/net/arvin/permissionhelper/PermissionUtil.java:80-84 | changes nothing; returns the callback `Step` gives, which is one callback to the stored listener, or none when the slot is empty |
| PermissionHelper.PermissionUtil.RequestInstallApp | permissionhelper/src/main/java/net/arvin/permissionhelper/PermissionUtil.java:86-93 | the new slots, the returned events and the appended adapter call are those `Step` gives for `requestInstallApp` |
| PermissionHelper.PermissionUtil.CallCanInstallApp | permissionhelper/src/main/java/net/arvin/permissionhelper/PermissionUtil.java:95-99 | changes nothing; returns the `canInstallApp` event `Step` gives, sent only when an install listener is stored |
| PermissionHelper.PermissionUtil.RemoveListener | permissionhelper/src/main/java/net/arvin/permissionhelper/PermissionUtil.java:101-104 | both slots are empty afterwards, and nothing is called |
| PermissionHelper.Builder.constructor | permissionhelper/src/main/java/net/arvin/permissionhelper/PermissionUtil.java:173-174 | a new builder has no host and the unconfigured configuration |
| PermissionHelper.Builder.WithActivity | permissionhelper/src/main/java/net/arvin/permissionhelper/PermissionUtil.java:176-179 | sets the activity host and returns the same builder |
| PermissionHelper.Builder.WithFragment | permissionhelper/src/main/java/net/arvin/permissionhelper/PermissionUtil.java:181-184 | sets the fragment host and returns the same builder |
| PermissionHelper.Builder.SetTitleText | permissionhelper/src/main/java/net/arvin/permissionhelper/PermissionUtil.java:186-189 | changes only `titleText` and returns the same builder |
| PermissionHelper.Builder.SetEnsureBtnText | permissionhelper/src/main/java/net/arvin/permissionhelper/PermissionUtil.java:191-194 | changes only `ensureBtnText` and returns the same builder |
| PermissionHelper.Builder.SetCancelBtnText | permissionhelper/src/main/java/net/arvin/permissionhelper/PermissionUtil.java:196-199 | changes only `cancelBtnText` and returns the same builder |
| PermissionHelper.Builder.SetShowRequest | permissionhelper/src/main/java/net/arvin/permissionhelper/PermissionUtil.java:201-204 | changes only `isShowRequest` and returns the same builder |
| PermissionHelper.Builder.SetRequestCancelable | permissionhelper/src/main/java/net/arvin/permissionhelper/PermissionUtil.java:206-209 | changes only `isRequestCancelable` and returns the same builder |
| PermissionHelper.Builder.SetSettingCancelable | permissionhelper/src/main/java/net/arvin/permissionhelper/PermissionUtil.java:211-214 | changes only `isSettingCancelable` and returns the same builder |
| PermissionHelper.Builder.SetInstallCancelable | permissionhelper/src/main/java/net/arvin/permissionhelper/PermissionUtil.java:216-219 | changes only `isInstallCancelable` and returns the same builder |
| PermissionHelper.Builder.SetShowSetting | permissionhelper/src/main/java/net/arvin/permissionhelper/PermissionUtil.java:221-224 | changes only `isShowSetting` and returns the same builder |
| PermissionHelper.Builder.SetShowInstall | permissionhelper/src/main/java/net/arvin/permissionhelper/PermissionUtil.java:226-229 | changes only `isShowInstall` and returns the same builder |
| PermissionHelper.Builder.SetSettingMsg | permissionhelper/src/main/java/net/arvin/permissionhelper/PermissionUtil.java:231-234 | changes only `settingMsg` and returns the same builder |
| PermissionHelper.Builder.SetSettingEnsureText | permissionhelper/src/main/java/net/arvin/permissionhelper/PermissionUtil.java:236-239 | changes only `settingEnsureText` and returns the same builder |
| PermissionHelper.Builder.SetSettingCancelText | permissionhelper/src/main/java/net/arvin/permissionhelper/PermissionUtil.java:241-244 | changes only `settingCancelText` and returns the same builder |
| PermissionHelper.Builder.SetInstallAppMsg | permissionhelper/src/main/java/net/arvin/permissionhelper/PermissionUtil.java:246-249 | changes only `installAppMsg` and returns the same builder |
| PermissionHelper.Builder.ApplyDefaults | permissionhelper/src/main/java/net/arvin/permissionhelper/PermissionUtil.java:340-357 | the builder's configuration becomes `WithDefaults` of what it was; the hosts are untouched |
| PermissionHelper.Builder.Build | permissionhelper/src/main/java/net/arvin/permissionhelper/PermissionUtil.java:339-359 | texts are defaulted in the builder; a fresh controller with empty slots is bound to this builder and attached through the host's registry, an adapter it had to create is fresh with no calls; with no host the controller has no adapter and the error is logged |
| PermissionHelper.BuildTwiceOnOneHost | permissionhelper/src/main/java/net/arvin/permissionhelper/PermissionUtil.java:43-53 | two controllers built on one host share its single adapter, and that adapter reports to the controller built last |

## Left out

- `getUri` (all four overloads): each one branches on the Android version and calls `FileProvider`, `Uri.fromFile` or `Intent.addFlags`, which are library code outside this model.
- The colour fields, their setters and getters: they are opaque integers with no logic.
- The getters of `Builder`, `getBuilder` and `asArray`: each returns a field or its argument unchanged. `Builder.Config` and `PermissionUtil.builder` show the same values.
- `PermissionFragment`: its source is not part of this model. Its permission queries, dialogs, "never ask again" classification, settings redirect and install-source request are not modelled. It appears only as a sink that records calls and its owner. Its duty to call `requestBack` once per request is not modelled.
- `FragmentManager` transactions (`beginTransaction().add().commitNow()`): registering a fragment is modelled as one map update of the tag registry.
- `Log.e`/`Log.d`: these are not written to a global log. They are returned as `Log` events. The constructor's error when no host is set is returned by `Build` instead, because a Dafny constructor has no out-parameters.
- `Protocol.Permission`: a permission identifier is a non-null string. A `null` element inside the array is not represented, and the source never checks for one.
- `PermissionHelper.Builder.ApplyDefaults`: each of `build()`'s six `if (textIsNone(x)) x = default` statements is written as one assignment through `Settings.Defaulted`. That function holds the same null test.
- Host recreation by the OS, threading, and process death: the code has no concurrency, and nothing it does depends on lifecycle callbacks.
