/**
 * The configuration a `PermissionUtil.Builder` collects, as a value, and the
 * defaulting step that `build()` applies to it.
 */
module Settings {
  import opened Wrappers

  /** The default texts `build()` fills in. */
  const DefaultEnsureBtnText: string := "确定"
  const DefaultCancelBtnText: string := "取消"
  const DefaultSettingMsg: string := "当前应用缺少必要权限。\n请点击\"设置\"-\"权限\"-打开所需权限。"
  const DefaultSettingEnsureText: string := "设置"
  const DefaultSettingCancelText: string := "取消"
  const DefaultInstallAppMsg: string := "允许安装来自此来源的应用"

  /** The text and flag fields of a builder (the colour fields are not modelled). */
  datatype Config = Config(
    titleText: Text,
    ensureBtnText: Text,
    cancelBtnText: Text,
    isRequestCancelable: bool,
    isSettingCancelable: bool,
    isInstallCancelable: bool,
    isShowRequest: bool,
    isShowSetting: bool,
    isShowInstall: bool,
    settingMsg: Text,
    settingEnsureText: Text,
    settingCancelText: Text,
    installAppMsg: Text)

  /** A freshly constructed builder: no text set, every flag at its initial `true`. */
  function Unconfigured(): (c: Config)
    ensures c.titleText.None? && c.ensureBtnText.None? && c.cancelBtnText.None?
    ensures c.settingMsg.None? && c.settingEnsureText.None? && c.settingCancelText.None? && c.installAppMsg.None?
    ensures c.isRequestCancelable && c.isSettingCancelable && c.isInstallCancelable
    ensures c.isShowRequest && c.isShowSetting && c.isShowInstall
  {
    Config(None, None, None, true, true, true, true, true, true, None, None, None, None)
  }

  /** `textIsNone`: only `null` counts as unset; an empty string is a value. */
  predicate TextIsNone(s: Text) {
    s.None?
  }

  /** Every text that `build()` defaults is present (the title has no default). */
  predicate HasAllTexts(c: Config) {
    && c.ensureBtnText.Some?
    && c.cancelBtnText.Some?
    && c.settingMsg.Some?
    && c.settingEnsureText.Some?
    && c.settingCancelText.Some?
    && c.installAppMsg.Some?
  }

  /** One field of the defaulting step: keep a present text, replace an absent one. */
  function Defaulted(s: Text, default: string): (r: Text)
    ensures r.Some?
    ensures s.Some? ==> r == s
    ensures s.None? ==> r == Some(default)
  {
    if TextIsNone(s) then Some(default) else s
  }

  /** The configuration after `build()` has filled in the missing texts. */
  function WithDefaults(c: Config): (r: Config)
    ensures HasAllTexts(r)
    ensures r.titleText == c.titleText
    ensures r.isRequestCancelable == c.isRequestCancelable
    ensures r.isSettingCancelable == c.isSettingCancelable
    ensures r.isInstallCancelable == c.isInstallCancelable
    ensures r.isShowRequest == c.isShowRequest
    ensures r.isShowSetting == c.isShowSetting
    ensures r.isShowInstall == c.isShowInstall
    ensures c.ensureBtnText.Some? ==> r.ensureBtnText == c.ensureBtnText
    ensures c.cancelBtnText.Some? ==> r.cancelBtnText == c.cancelBtnText
    ensures c.settingMsg.Some? ==> r.settingMsg == c.settingMsg
    ensures c.settingEnsureText.Some? ==> r.settingEnsureText == c.settingEnsureText
    ensures c.settingCancelText.Some? ==> r.settingCancelText == c.settingCancelText
    ensures c.installAppMsg.Some? ==> r.installAppMsg == c.installAppMsg
    ensures c.ensureBtnText.None? ==> r.ensureBtnText == Some(DefaultEnsureBtnText)
    ensures c.cancelBtnText.None? ==> r.cancelBtnText == Some(DefaultCancelBtnText)
    ensures c.settingMsg.None? ==> r.settingMsg == Some(DefaultSettingMsg)
    ensures c.settingEnsureText.None? ==> r.settingEnsureText == Some(DefaultSettingEnsureText)
    ensures c.settingCancelText.None? ==> r.settingCancelText == Some(DefaultSettingCancelText)
    ensures c.installAppMsg.None? ==> r.installAppMsg == Some(DefaultInstallAppMsg)
    ensures HasAllTexts(c) ==> r == c
  {
    c.(ensureBtnText := Defaulted(c.ensureBtnText, DefaultEnsureBtnText),
       cancelBtnText := Defaulted(c.cancelBtnText, DefaultCancelBtnText),
       settingMsg := Defaulted(c.settingMsg, DefaultSettingMsg),
       settingEnsureText := Defaulted(c.settingEnsureText, DefaultSettingEnsureText),
       settingCancelText := Defaulted(c.settingCancelText, DefaultSettingCancelText),
       installAppMsg := Defaulted(c.installAppMsg, DefaultInstallAppMsg))
  }

  /** Building twice gives the configuration that building once gives. */
  lemma WithDefaultsIdempotent(c: Config)
    ensures WithDefaults(WithDefaults(c)) == WithDefaults(c)
  {
  }

  /** `Builder().build()` with nothing set yields exactly the documented defaults and no title. */
  lemma UnconfiguredDefaults()
    ensures WithDefaults(Unconfigured()) == Config(
      None, Some("确定"), Some("取消"), true, true, true, true, true, true,
      Some("当前应用缺少必要权限。\n请点击\"设置\"-\"权限\"-打开所需权限。"),
      Some("设置"), Some("取消"), Some("允许安装来自此来源的应用"))
  {
  }

  /** Empty strings given to the setters all survive `build()`: none of them is `null`. */
  lemma EmptyTextKept(c: Config)
    requires c.ensureBtnText == Some("") && c.cancelBtnText == Some("") && c.settingMsg == Some("")
    requires c.settingEnsureText == Some("") && c.settingCancelText == Some("") && c.installAppMsg == Some("")
    ensures WithDefaults(c) == c
  {
  }
}
