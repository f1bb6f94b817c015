/**
 * `PermissionUtil` and its `Builder` as objects that change in place, together
 * with the parts of the Android framework they touch: a host (activity or
 * fragment) owns a `FragmentManager`, whose tag registry holds the headless
 * `PermissionFragment` that the controller forwards its requests to.
 *
 * The `PermissionFragment` is only a sink here: it records the calls it
 * receives and the controller it is bound to. Listener callbacks and log
 * records are returned by each operation as `Protocol` events.
 */
module PermissionHelper {
  import opened Wrappers
  import opened Settings
  import opened Protocol

  /** `PermissionUtil.class.getSimpleName()`: the tag the adapter is registered under. */
  const TAG: string := "PermissionUtil"

  /** The host adapter, reduced to what the controller sees of it. */
  class PermissionFragment {
    /** The controller it reports results to (`setPermissionUtil`). */
    var owner: PermissionUtil?
    /** Every call it has received, oldest first. */
    var calls: seq<AdapterCall>

    constructor ()
      ensures owner == null && calls == []
    {
      owner := null;
      calls := [];
    }

    method SetPermissionUtil(u: PermissionUtil)
      modifies this`owner
      ensures owner == u
    {
      owner := u;
    }

    method Request(msg: Text, permissions: seq<Permission>)
      modifies this`calls
      ensures calls == old(calls) + [AdapterRequest(msg, permissions)]
    {
      calls := calls + [AdapterRequest(msg, permissions)];
    }

    method RequestInstallApp()
      modifies this`calls
      ensures calls == old(calls) + [AdapterRequestInstallApp]
    {
      calls := calls + [AdapterRequestInstallApp];
    }
  }

  /** A host's registry of headless fragments, by tag. */
  class FragmentManager {
    var fragments: map<string, PermissionFragment>

    constructor ()
      ensures fragments == map[]
    {
      fragments := map[];
    }
  }

  /** The objects that attaching to `fm` may change: the registry and the adapter already in it. */
  function AttachFrame(fm: FragmentManager?): set<object>
    reads fm
  {
    if fm == null then {}
    else if TAG in fm.fragments then {fm, fm.fragments[TAG]}
    else {fm}
  }

  /** A host screen: its `FragmentManager` is `getSupportFragmentManager()`. */
  class FragmentActivity {
    const supportFragmentManager: FragmentManager

    constructor (fm: FragmentManager)
      ensures supportFragmentManager == fm
    {
      supportFragmentManager := fm;
    }
  }

  /** A host sub-screen: its `FragmentManager` is `getChildFragmentManager()`. */
  class Fragment {
    const childFragmentManager: FragmentManager

    constructor (fm: FragmentManager)
      ensures childFragmentManager == fm
    {
      childFragmentManager := fm;
    }
  }

  /** `u` is attached through `fm`, whose registry was `before`: the adapter under `TAG` is
      reused if there was one and created otherwise, and it is bound to `u`. */
  ghost predicate AttachedThrough(u: PermissionUtil, fm: FragmentManager, before: map<string, PermissionFragment>)
    reads u, u.permissionFragment, fm
  {
    && u.permissionFragment != null
    && u.permissionFragment.owner == u
    && fm.fragments == before[TAG := u.permissionFragment]
    && (TAG in before ==> u.permissionFragment == before[TAG])
  }

  /** The controller. */
  class PermissionUtil {
    const builder: Builder
    var permissionFragment: PermissionFragment?
    var requestPermissionListener: Option<PermissionListener>
    var requestInstallAppListener: Option<InstallListener>

    /** The two listener slots, as a value. */
    function Slots(): Protocol.Slots
      reads this
    {
      Protocol.Slots(requestPermissionListener, requestInstallAppListener)
    }

    predicate Attached()
      reads this
    {
      permissionFragment != null
    }

    /** Attaches to the activity if there is one, else to the fragment, else to nothing. */
    constructor (builder: Builder)
      modifies AttachFrame(builder.HostManager())
      ensures this.builder == builder && Slots() == Empty
      ensures builder.HostManager() == null ==> permissionFragment == null
      ensures var fm := builder.HostManager();
              fm != null ==> AttachedThrough(this, fm, old(fm.fragments))
      ensures var fm := builder.HostManager();
              fm != null && TAG !in old(fm.fragments) ==> fresh(permissionFragment) && permissionFragment.calls == []
      ensures var fm := builder.HostManager();
              fm != null && TAG in old(fm.fragments) ==> permissionFragment.calls == old(fm.fragments[TAG].calls)
    {
      this.builder := builder;
      permissionFragment := null;
      requestPermissionListener := None;
      requestInstallAppListener := None;
      new;
      if builder.activity != null {
        permissionFragment := InitFragment(builder.activity.supportFragmentManager);
        return;
      }
      if builder.fragment != null {
        permissionFragment := InitFragment(builder.fragment.childFragmentManager);
        return;
      }
    }

    /** Finds the adapter registered under `TAG`, creating and registering one if there is
        none, and binds it to this controller. */
    method InitFragment(fm: FragmentManager) returns (f: PermissionFragment)
      modifies AttachFrame(fm)
      ensures f.owner == this
      ensures fm.fragments == old(fm.fragments)[TAG := f]
      ensures TAG in old(fm.fragments) ==> f == old(fm.fragments[TAG]) && f.calls == old(f.calls)
      ensures TAG !in old(fm.fragments) ==> fresh(f) && f.calls == []
    {
      if TAG in fm.fragments {
        f := fm.fragments[TAG];
      } else {
        f := new PermissionFragment();
        fm.fragments := fm.fragments[TAG := f];
      }
      f.SetPermissionUtil(this);
    }

    /** `request(msg, permissions, listener)`, the array overload. */
    method Request(msg: Text, permissions: Option<seq<Permission>>, listener: Option<PermissionListener>)
      returns (events: seq<Event>)
      modifies this`requestPermissionListener, permissionFragment
      ensures var e := Step(old(Attached()), old(Slots()), Input.Request(msg, permissions, listener));
              && Slots() == e.slots
              && events == e.events
              && (Attached() ==> permissionFragment.calls == old(permissionFragment.calls) + e.calls)
      ensures Attached() ==> permissionFragment.owner == old(permissionFragment.owner)
    {
      if permissionFragment == null {
        events := [Log(Error, NoHostMessage)];
        return;
      }
      if permissions.None? || |permissions.value| == 0 {
        events := [Log(Debug, NoPermissionMessage)];
        return;
      }
      requestPermissionListener := listener;
      permissionFragment.Request(msg, permissions.value);
      events := [];
    }

    /** `request(msg, permission, listener)`, the single-permission overload. */
    method RequestOne(msg: Text, permission: Permission, listener: Option<PermissionListener>)
      returns (events: seq<Event>)
      modifies this`requestPermissionListener, permissionFragment
      ensures var e := Step(old(Attached()), old(Slots()), Input.RequestOne(msg, permission, listener));
              && Slots() == e.slots
              && events == e.events
              && (Attached() ==> permissionFragment.calls == old(permissionFragment.calls) + e.calls)
      ensures Attached() ==> permissionFragment.owner == old(permissionFragment.owner)
    {
      events := Request(msg, Some([permission]), listener);
    }

    /** `requestBack`: the adapter's report of a permission result. */
    method RequestBack(granted: bool, isAlwaysDenied: bool) returns (events: seq<Event>)
      ensures events == Step(Attached(), Slots(), Input.RequestBack(granted, isAlwaysDenied)).events
    {
      if requestPermissionListener.Some? {
        events := [Callback(requestPermissionListener.value, granted, isAlwaysDenied)];
      } else {
        events := [];
      }
    }

    /** `requestInstallApp(listener)`. */
    method RequestInstallApp(listener: Option<InstallListener>) returns (events: seq<Event>)
      modifies this`requestInstallAppListener, permissionFragment
      ensures var e := Step(old(Attached()), old(Slots()), Input.RequestInstallApp(listener));
              && Slots() == e.slots
              && events == e.events
              && (Attached() ==> permissionFragment.calls == old(permissionFragment.calls) + e.calls)
      ensures Attached() ==> permissionFragment.owner == old(permissionFragment.owner)
    {
      if permissionFragment == null {
        events := [Log(Error, NoHostMessage)];
        return;
      }
      requestInstallAppListener := listener;
      permissionFragment.RequestInstallApp();
      events := [];
    }

    /** `callCanInstallApp`: the adapter's report of the install-source capability. */
    method CallCanInstallApp(canInstall: bool) returns (events: seq<Event>)
      ensures events == Step(Attached(), Slots(), Input.CallCanInstallApp(canInstall)).events
    {
      if requestInstallAppListener.Some? {
        events := [CanInstallApp(requestInstallAppListener.value, canInstall)];
      } else {
        events := [];
      }
    }

    /** `removeListener()`: forgets both listeners without calling them. */
    method RemoveListener()
      modifies this`requestPermissionListener, this`requestInstallAppListener
      ensures Slots() == Step(old(Attached()), old(Slots()), Input.RemoveListener).slots
      ensures Slots() == Empty
    {
      requestPermissionListener := None;
      requestInstallAppListener := None;
    }
  }

  /** `PermissionUtil.Builder`: fluent setters, then `build()`. */
  class Builder {
    var activity: FragmentActivity?
    var fragment: Fragment?
    var titleText: Text
    var ensureBtnText: Text
    var cancelBtnText: Text
    var isRequestCancelable: bool
    var isSettingCancelable: bool
    var isInstallCancelable: bool
    var isShowRequest: bool
    var isShowSetting: bool
    var isShowInstall: bool
    var settingMsg: Text
    var settingEnsureText: Text
    var settingCancelText: Text
    var installAppMsg: Text

    /** The text and flag fields, as a value. */
    function Config(): Settings.Config
      reads this
    {
      Settings.Config(titleText, ensureBtnText, cancelBtnText,
        isRequestCancelable, isSettingCancelable, isInstallCancelable,
        isShowRequest, isShowSetting, isShowInstall,
        settingMsg, settingEnsureText, settingCancelText, installAppMsg)
    }

    /** The registry a controller built now attaches through: the activity's, else the fragment's. */
    function HostManager(): FragmentManager?
      reads this
    {
      if activity != null then activity.supportFragmentManager
      else if fragment != null then fragment.childFragmentManager
      else null
    }

    constructor ()
      ensures activity == null && fragment == null
      ensures Config() == Unconfigured()
    {
      activity, fragment := null, null;
      titleText, ensureBtnText, cancelBtnText := None, None, None;
      isRequestCancelable, isSettingCancelable, isInstallCancelable := true, true, true;
      isShowRequest, isShowSetting, isShowInstall := true, true, true;
      settingMsg, settingEnsureText, settingCancelText, installAppMsg := None, None, None, None;
    }

    /** `with(FragmentActivity)`. */
    method WithActivity(a: FragmentActivity?) returns (self: Builder)
      modifies this`activity
      ensures self == this && activity == a
    {
      activity := a;
      self := this;
    }

    /** `with(Fragment)`. */
    method WithFragment(f: Fragment?) returns (self: Builder)
      modifies this`fragment
      ensures self == this && fragment == f
    {
      fragment := f;
      self := this;
    }

    method SetTitleText(s: Text) returns (self: Builder)
      modifies this`titleText
      ensures self == this && Config() == old(Config()).(titleText := s)
    {
      titleText := s;
      self := this;
    }

    method SetEnsureBtnText(s: Text) returns (self: Builder)
      modifies this`ensureBtnText
      ensures self == this && Config() == old(Config()).(ensureBtnText := s)
    {
      ensureBtnText := s;
      self := this;
    }

    method SetCancelBtnText(s: Text) returns (self: Builder)
      modifies this`cancelBtnText
      ensures self == this && Config() == old(Config()).(cancelBtnText := s)
    {
      cancelBtnText := s;
      self := this;
    }

    method SetShowRequest(b: bool) returns (self: Builder)
      modifies this`isShowRequest
      ensures self == this && Config() == old(Config()).(isShowRequest := b)
    {
      isShowRequest := b;
      self := this;
    }

    method SetRequestCancelable(b: bool) returns (self: Builder)
      modifies this`isRequestCancelable
      ensures self == this && Config() == old(Config()).(isRequestCancelable := b)
    {
      isRequestCancelable := b;
      self := this;
    }

    method SetSettingCancelable(b: bool) returns (self: Builder)
      modifies this`isSettingCancelable
      ensures self == this && Config() == old(Config()).(isSettingCancelable := b)
    {
      isSettingCancelable := b;
      self := this;
    }

    method SetInstallCancelable(b: bool) returns (self: Builder)
      modifies this`isInstallCancelable
      ensures self == this && Config() == old(Config()).(isInstallCancelable := b)
    {
      isInstallCancelable := b;
      self := this;
    }

    method SetShowSetting(b: bool) returns (self: Builder)
      modifies this`isShowSetting
      ensures self == this && Config() == old(Config()).(isShowSetting := b)
    {
      isShowSetting := b;
      self := this;
    }

    method SetShowInstall(b: bool) returns (self: Builder)
      modifies this`isShowInstall
      ensures self == this && Config() == old(Config()).(isShowInstall := b)
    {
      isShowInstall := b;
      self := this;
    }

    method SetSettingMsg(s: Text) returns (self: Builder)
      modifies this`settingMsg
      ensures self == this && Config() == old(Config()).(settingMsg := s)
    {
      settingMsg := s;
      self := this;
    }

    method SetSettingEnsureText(s: Text) returns (self: Builder)
      modifies this`settingEnsureText
      ensures self == this && Config() == old(Config()).(settingEnsureText := s)
    {
      settingEnsureText := s;
      self := this;
    }

    method SetSettingCancelText(s: Text) returns (self: Builder)
      modifies this`settingCancelText
      ensures self == this && Config() == old(Config()).(settingCancelText := s)
    {
      settingCancelText := s;
      self := this;
    }

    method SetInstallAppMsg(s: Text) returns (self: Builder)
      modifies this`installAppMsg
      ensures self == this && Config() == old(Config()).(installAppMsg := s)
    {
      installAppMsg := s;
      self := this;
    }

    /** The defaulting half of `build()`: each text still `null` gets its default. */
    method ApplyDefaults()
      modifies this`ensureBtnText, this`cancelBtnText, this`settingMsg,
               this`settingEnsureText, this`settingCancelText, this`installAppMsg
      ensures Config() == WithDefaults(old(Config()))
    {
      ensureBtnText := Defaulted(ensureBtnText, DefaultEnsureBtnText);
      cancelBtnText := Defaulted(cancelBtnText, DefaultCancelBtnText);
      settingMsg := Defaulted(settingMsg, DefaultSettingMsg);
      settingEnsureText := Defaulted(settingEnsureText, DefaultSettingEnsureText);
      settingCancelText := Defaulted(settingCancelText, DefaultSettingCancelText);
      installAppMsg := Defaulted(installAppMsg, DefaultInstallAppMsg);
    }

    /** `build()`: fills in every unset text, then constructs a controller on this builder.
        `events` is the error the constructor logs when there is no host. */
    method Build() returns (u: PermissionUtil, events: seq<Event>)
      modifies this, AttachFrame(HostManager())
      ensures activity == old(activity) && fragment == old(fragment)
      ensures Config() == WithDefaults(old(Config()))
      ensures fresh(u) && u.builder == this && u.Slots() == Empty
      ensures HostManager() == null ==> !u.Attached() && events == [Log(Error, NoHostMessage)]
      ensures var fm := HostManager();
              fm != null ==> AttachedThrough(u, fm, old(fm.fragments)) && events == []
      ensures var fm := HostManager();
              fm != null && TAG !in old(fm.fragments) ==> fresh(u.permissionFragment) && u.permissionFragment.calls == []
      ensures var fm := HostManager();
              fm != null && TAG in old(fm.fragments) ==> u.permissionFragment.calls == old(fm.fragments[TAG].calls)
    {
      ApplyDefaults();
      u := new PermissionUtil(this);
      events := if u.permissionFragment == null then [Log(Error, NoHostMessage)] else [];
    }
  }

  /** Two controllers built on one host share its single adapter, and the adapter reports
      to the one attached last. */
  method BuildTwiceOnOneHost(b: Builder) returns (first: PermissionUtil, second: PermissionUtil)
    requires b.HostManager() != null
    modifies b, AttachFrame(b.HostManager())
    ensures first != second && first.permissionFragment == second.permissionFragment
    ensures second.permissionFragment != null && second.permissionFragment.owner == second
  {
    var fm := b.HostManager();
    var events;
    first, events := b.Build();
    assert TAG in fm.fragments;
    second, events := b.Build();
  }
}
