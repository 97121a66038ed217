/**
 * The host-bridge adapter and session context: parsing the theme text colour
 * into an RGB triple, the provider's one-shot initialisation that turns the
 * host bridge (`window.Telegram.WebApp`, passed in here as a value that may
 * be absent) into the session state and the root element's theme variables,
 * and the guard on reading the context.
 */
module TelegramContext {
  import opened Wrappers
  import opened JsValues
  import opened JsNumbers

  /** The unverified user record the host parses out of its init data. */
  datatype TgUser = TgUser(
    id: Json,
    firstName: string,
    lastName: Option<string>,
    username: Option<string>,
    languageCode: Option<string>,
    isPremium: Option<bool>)

  /** What happens when the page invokes one of the host's signal functions. */
  datatype HostCallOutcome = Returns | Throws(message: string)

  /** The host's theme colours; an absent or empty colour falls back to a default. */
  datatype ThemeParams = ThemeParams(
    bgColor: Option<string>,
    textColor: Option<string>,
    buttonColor: Option<string>,
    buttonTextColor: Option<string>)

  /**
   * The host bridge. An absent `initData` is the empty string (both are falsy
   * wherever the code reads it); `ready`/`expand` are `None` when the host
   * offers no such function, else what calling it does.
   */
  datatype Bridge = Bridge(
    initData: string,
    user: Option<TgUser>,
    themeParams: Option<ThemeParams>,
    ready: Option<HostCallOutcome>,
    expand: Option<HostCallOutcome>,
    hasMainButton: bool)

  /** The value the provider hands to its descendants. */
  datatype Session = Session(
    tg: Option<Bridge>,
    user: Option<TgUser>,
    ready: bool,
    telegramAvailable: bool,
    initDataError: Option<string>)

  /** A signal function of the host that the page invoked. */
  datatype HostSignal = ReadySignal | ExpandSignal

  /** The three components of `hexToRgb`; `None` is NaN. */
  datatype Rgb = Rgb(r: Option<int>, g: Option<int>, b: Option<int>)

  const NotAvailableMessage := "Telegram WebApp is not available. Please open this app from Telegram."
  const InitDataMissingMessage := "Telegram initData is missing. This app needs to be opened from Telegram."
  const InitErrorPrefix := "Error initializing Telegram WebApp: "
  const OutsideProviderMessage := "useTelegram must be used within a TelegramProvider"

  /** The five CSS custom properties initialisation sets on the root element. */
  datatype ThemeVar = BgColorVar | TextColorVar | ButtonColorVar | ButtonTextColorVar | TextColorRgbVar

  /** The property name each variable is written under. */
  function PropertyName(v: ThemeVar): string {
    match v
    case BgColorVar => "--tg-theme-bg-color"
    case TextColorVar => "--tg-theme-text-color"
    case ButtonColorVar => "--tg-theme-button-color"
    case ButtonTextColorVar => "--tg-theme-button-text-color"
    case TextColorRgbVar => "--tg-theme-text-color-rgb"
  }

  const DefaultBgColor := "#ffffff"
  const DefaultTextColor := "#000000"
  const DefaultButtonColor := "#3390ec"
  const DefaultButtonTextColor := "#ffffff"

  /** `hexToRgb`: drop the first `#`, then parse characters 0-1, 2-3 and 4-5 as hex numbers. */
  function HexToRgb(hex: string): Rgb {
    var h := ReplaceFirst(hex, '#');
    Rgb(ParseIntHex(Substring(h, 0, 2)), ParseIntHex(Substring(h, 2, 4)), ParseIntHex(Substring(h, 4, 6)))
  }

  /** Six hex digits, with or without a leading `#`, give the three byte values they spell. */
  lemma HexToRgbSixDigits(digits: string)
    requires |digits| == 6 && AllHexDigits(digits)
    ensures HexToRgb(digits) == HexToRgb("#" + digits)
    ensures HexToRgb(digits) == Rgb(Some(HexValue(digits[0..2])), Some(HexValue(digits[2..4])), Some(HexValue(digits[4..6])))
    ensures 0 <= HexValue(digits[0..2]) < 256 && 0 <= HexValue(digits[2..4]) < 256 && 0 <= HexValue(digits[4..6]) < 256
  {
    HashOfDigits(digits);
    ComponentOfDigits(digits, 0);
    ComponentOfDigits(digits, 2);
    ComponentOfDigits(digits, 4);
  }

  /** Dropping the first `#` leaves hex digits alone, and removes a single leading `#`. */
  lemma HashOfDigits(digits: string)
    requires AllHexDigits(digits)
    ensures ReplaceFirst(digits, '#') == digits
    ensures ReplaceFirst("#" + digits, '#') == digits
  {
    assert '#' !in digits by {
      forall k | 0 <= k < |digits| ensures digits[k] != '#' {
        assert IsHexDigit(digits[k]);
      }
    }
    IndexOfSpec(digits, '#');
    ReplaceFirstSpec(digits, '#');
    var hashed := "#" + digits;
    assert hashed[0] == '#' && hashed[1..] == digits;
  }

  /** The two-character component at `start` of a string of hex digits. */
  lemma ComponentOfDigits(h: string, start: nat)
    requires AllHexDigits(h) && start + 2 <= |h|
    ensures AllHexDigits(h[start..start + 2])
    ensures ParseIntHex(Substring(h, start, start + 2)) == Some(HexValue(h[start..start + 2]))
    ensures HexValue(h[start..start + 2]) < 256
  {
    var slice := h[start..start + 2];
    SubstringClamps(h, start, start + 2);
    assert Substring(h, start, start + 2) == slice;
    ParseIntHexOfDigits(slice);
    HexValueBound(slice);
  }

  /**
   * On hex digits alone (after the first `#` is dropped) a component is NaN
   * exactly when its slice is empty, that is when the digits end before it.
   */
  lemma {:induction false} HexToRgbShortInput(hex: string)
    requires AllHexDigits(ReplaceFirst(hex, '#'))
    ensures var h := ReplaceFirst(hex, '#'); var c := HexToRgb(hex);
      && (c.r.None? <==> |h| <= 0)
      && (c.g.None? <==> |h| <= 2)
      && (c.b.None? <==> |h| <= 4)
  {
    var h := ReplaceFirst(hex, '#');
    SliceOfDigits(h, 0);
    SliceOfDigits(h, 2);
    SliceOfDigits(h, 4);
  }

  lemma SliceOfDigits(h: string, start: nat)
    requires AllHexDigits(h)
    ensures ParseIntHex(Substring(h, start, start + 2)).None? <==> |h| <= start
  {
    var slice := Substring(h, start, start + 2);
    SubstringClamps(h, start, start + 2);
    assert AllHexDigits(slice) && (slice == [] <==> |h| <= start);
    ParseIntHexOfDigits(slice);
  }

  /** `hexToRgb("#fff")`: red and green are read, blue is NaN. */
  lemma HexToRgbThreeDigits()
    ensures HexToRgb("#fff") == Rgb(Some(255), Some(15), None)
  {
    var h, ff, f := "fff", "ff", "f";
    HashOfDigits(h);
    assert "#" + h == "#fff";
    SubstringClamps(h, 0, 2);
    SubstringClamps(h, 2, 4);
    SubstringClamps(h, 4, 6);
    assert Substring(h, 0, 2) == ff;
    assert Substring(h, 2, 4) == f;
    assert Substring(h, 4, 6) == "";
    ParseIntHexOfDigits(ff);
    ParseIntHexOfDigits(f);
    assert HexValue(ff) == 255;
  }

  /** The text the RGB variable receives: `${r}, ${g}, ${b}`. */
  function RgbText(c: Rgb): string {
    NumberText(c.r) + ", " + NumberText(c.g) + ", " + NumberText(c.b)
  }

  /** `value || fallback` for a colour that may be absent. */
  function ColourOr(value: Option<string>, fallback: string): string {
    if value.Some? && value.value != "" then value.value else fallback
  }

  function BgColor(theme: Option<ThemeParams>): string {
    ColourOr(if theme.Some? then theme.value.bgColor else None, DefaultBgColor)
  }

  function TextColor(theme: Option<ThemeParams>): string {
    ColourOr(if theme.Some? then theme.value.textColor else None, DefaultTextColor)
  }

  function ButtonColor(theme: Option<ThemeParams>): string {
    ColourOr(if theme.Some? then theme.value.buttonColor else None, DefaultButtonColor)
  }

  function ButtonTextColor(theme: Option<ThemeParams>): string {
    ColourOr(if theme.Some? then theme.value.buttonTextColor else None, DefaultButtonTextColor)
  }

  /** The five variables initialisation writes on the root element. */
  function ThemeVars(theme: Option<ThemeParams>): map<ThemeVar, string> {
    map[
      BgColorVar := BgColor(theme),
      TextColorVar := TextColor(theme),
      ButtonColorVar := ButtonColor(theme),
      ButtonTextColorVar := ButtonTextColor(theme),
      TextColorRgbVar := RgbText(HexToRgb(TextColor(theme)))]
  }

  /**
   * Exactly the five variables are written: each colour the host gives (when
   * non-empty) as is, and the RGB text of the very text colour that was written.
   */
  lemma ThemeVarsSpec(theme: Option<ThemeParams>)
    ensures var vars := ThemeVars(theme);
      && vars.Keys == {BgColorVar, TextColorVar, ButtonColorVar, ButtonTextColorVar, TextColorRgbVar}
      && vars[TextColorRgbVar] == RgbText(HexToRgb(vars[TextColorVar]))
      && (theme.Some? && theme.value.bgColor.Some? && theme.value.bgColor.value != "" ==>
          vars[BgColorVar] == theme.value.bgColor.value)
      && (theme.Some? && theme.value.textColor.Some? && theme.value.textColor.value != "" ==>
          vars[TextColorVar] == theme.value.textColor.value)
      && (theme.Some? && theme.value.buttonColor.Some? && theme.value.buttonColor.value != "" ==>
          vars[ButtonColorVar] == theme.value.buttonColor.value)
      && (theme.Some? && theme.value.buttonTextColor.Some? && theme.value.buttonTextColor.value != "" ==>
          vars[ButtonTextColorVar] == theme.value.buttonTextColor.value)
  {
  }

  /** A colour the host leaves out, or gives as the empty string, falls back to its fixed default. */
  lemma ThemeVarFallbacks(theme: Option<ThemeParams>)
    ensures theme.None? || theme.value.bgColor in {None, Some("")} ==>
      ThemeVars(theme)[BgColorVar] == "#ffffff"
    ensures theme.None? || theme.value.textColor in {None, Some("")} ==>
      ThemeVars(theme)[TextColorVar] == "#000000"
    ensures theme.None? || theme.value.buttonColor in {None, Some("")} ==>
      ThemeVars(theme)[ButtonColorVar] == "#3390ec"
    ensures theme.None? || theme.value.buttonTextColor in {None, Some("")} ==>
      ThemeVars(theme)[ButtonTextColorVar] == "#ffffff"
  {
  }

  /** Without a text colour from the host the RGB variable is black, `0, 0, 0`. */
  lemma DefaultTextColorRgb(theme: Option<ThemeParams>)
    requires theme.None? || theme.value.textColor in {None, Some("")}
    ensures ThemeVars(theme)[TextColorRgbVar] == "0, 0, 0"
  {
    assert TextColor(theme) == DefaultTextColor;
    BlackHexToRgb();
    BlackRgbText();
  }

  lemma BlackHexToRgb()
    ensures HexToRgb(DefaultTextColor) == Rgb(Some(0), Some(0), Some(0))
  {
    var zeros, zero := "000000", "00";
    assert "#" + zeros == DefaultTextColor;
    HashOfDigits(zeros);
    assert zeros[0..2] == zeros[2..4] == zeros[4..6] == zero;
    ComponentOfDigits(zeros, 0);
    ComponentOfDigits(zeros, 2);
    ComponentOfDigits(zeros, 4);
    assert HexValue(zero) == 0;
  }

  lemma BlackRgbText()
    ensures RgbText(Rgb(Some(0), Some(0), Some(0))) == "0, 0, 0"
  {
    assert NumberText(Some(0)) == "0";
  }

  /** Writing the five variables one by one overrides exactly those five entries. */
  lemma ThemeWrites(m: map<ThemeVar, string>, bg: string, text: string, button: string, buttonText: string, rgb: string)
    ensures m[BgColorVar := bg][TextColorVar := text][ButtonColorVar := button][ButtonTextColorVar := buttonText][TextColorRgbVar := rgb]
      == m + map[BgColorVar := bg, TextColorVar := text, ButtonColorVar := button, ButtonTextColorVar := buttonText, TextColorRgbVar := rgb]
  {
  }

  /** The signals initialisation sends to the host: `ready()` then `expand()`, only when both exist, stopping at a throw. */
  function HostSignals(b: Bridge): seq<HostSignal> {
    if b.ready.None? || b.expand.None? then []
    else if b.ready.value.Throws? then [ReadySignal]
    else [ReadySignal, ExpandSignal]
  }

  /** The message of the first signal call that throws, if any. */
  function SignalFailure(b: Bridge): Option<string> {
    if b.ready.None? || b.expand.None? then None
    else if b.ready.value.Throws? then Some(b.ready.value.message)
    else if b.expand.value.Throws? then Some(b.expand.value.message)
    else None
  }

  /** Each signal goes out at most once, `ready` first, and none unless the host offers both. */
  lemma HostSignalsOnce(b: Bridge)
    ensures |HostSignals(b)| > 0 <==> b.ready.Some? && b.expand.Some?
    ensures |HostSignals(b)| > 0 ==> HostSignals(b)[0] == ReadySignal
    ensures ExpandSignal in HostSignals(b) <==> b.ready == Some(Returns) && b.expand.Some?
    ensures |HostSignals(b)| <= 2 && (|HostSignals(b)| == 2 ==> HostSignals(b)[1] == ExpandSignal)
  {
  }

  /** The provider's state before its effect runs: Telegram assumed available, not ready, no error. */
  const InitialSession := Session(None, None, false, true, None)

  /**
   * The session the mount effect leaves behind. Without a bridge: not
   * available, with its error, and nothing else touched. With one: a missing
   * `initData` is noted, `tg` and `user` come from the bridge, and `ready`
   * turns true unless a host signal throws, whose message then replaces the
   * error.
   */
  function AfterInit(s: Session, telegram: Option<Bridge>): Session {
    match telegram
    case None => s.(telegramAvailable := false, initDataError := Some(NotAvailableMessage))
    case Some(b) =>
      var noted := if b.initData == "" then Some(InitDataMissingMessage) else s.initDataError;
      var failure := SignalFailure(b);
      Session(
        Some(b), b.user, failure.None? || s.ready, s.telegramAvailable,
        if failure.Some? then Some(InitErrorPrefix + failure.value) else noted)
  }

  /** Without a bridge the page is told Telegram is unavailable, and stays not ready with no user. */
  lemma InitWithoutBridge()
    ensures var r := AfterInit(InitialSession, None);
      && !r.telegramAvailable && r.initDataError == Some(NotAvailableMessage)
      && !r.ready && r.user.None? && r.tg.None?
  {
  }

  /**
   * With a bridge and no throwing signal the session becomes ready with the
   * bridge's user (absent if the host parsed none); an empty `initData` is
   * recorded as a non-fatal error and does not stop initialisation.
   */
  lemma InitWithBridge(s: Session, b: Bridge)
    requires SignalFailure(b).None?
    ensures var r := AfterInit(s, Some(b));
      && r.ready && r.tg == Some(b) && r.user == b.user && r.telegramAvailable == s.telegramAvailable
      && (b.initData == "" ==> r.initDataError == Some(InitDataMissingMessage))
      && (b.initData != "" ==> r.initDataError == s.initDataError)
  {
  }

  /** A throwing `ready()` or `expand()` replaces the error with its message and leaves `ready` as it was. */
  lemma InitSignalThrows(s: Session, b: Bridge, message: string)
    requires || (b.ready == Some(Throws(message)) && b.expand.Some?)
             || (b.ready == Some(Returns) && b.expand == Some(Throws(message)))
    ensures var r := AfterInit(s, Some(b));
      && r.initDataError == Some(InitErrorPrefix + message)
      && r.ready == s.ready
      && r.tg == Some(b) && r.user == b.user
  {
  }

  /**
   * The `TelegramProvider`: its five state cells, the root element's inline
   * style properties, and the signal calls it made on the host.
   */
  class TelegramProvider {
    var tg: Option<Bridge>
    var user: Option<TgUser>
    var ready: bool
    var telegramAvailable: bool
    var initDataError: Option<string>
    var style: map<ThemeVar, string>
    var hostCalls: seq<HostSignal>

    /** The initial state, before the effect runs: available, not ready, no error. */
    constructor (rootStyle: map<ThemeVar, string>)
      ensures tg == None && user == None && !ready && telegramAvailable && initDataError == None
      ensures style == rootStyle && hostCalls == []
    {
      tg, user, ready, telegramAvailable, initDataError := None, None, false, true, None;
      style, hostCalls := rootStyle, [];
    }

    /** The context value the provider exposes. */
    function Value(): Session
      reads this
    {
      Session(tg, user, ready, telegramAvailable, initDataError)
    }

    /**
     * The mount effect. Without a bridge it records the "not available"
     * error and stops. Otherwise it notes a missing `initData` and goes on:
     * theme variables, `tg` and `user`, the host signals, and `ready`; a
     * throwing signal overwrites the error and leaves `ready` as it was.
     */
    method Init(telegram: Option<Bridge>)
      modifies this
      ensures Value() == AfterInit(old(Value()), telegram)
      ensures style == if telegram.Some? then old(style) + ThemeVars(telegram.value.themeParams) else old(style)
      ensures hostCalls == old(hostCalls) + if telegram.Some? then HostSignals(telegram.value) else []
    {
      if telegram.None? {
        telegramAvailable := false;
        initDataError := Some(NotAvailableMessage);
        return;
      }
      SetUpBridge(telegram.value);
    }

    /** The effect once the bridge is known to exist, up to and including its `catch`. */
    method SetUpBridge(b: Bridge)
      modifies this
      ensures Value() == AfterInit(old(Value()), Some(b))
      ensures style == old(style) + ThemeVars(b.themeParams)
      ensures hostCalls == old(hostCalls) + HostSignals(b)
    {
      if b.initData == "" {
        initDataError := Some(InitDataMissingMessage);
      }
      ApplyTheme(b.themeParams);
      tg := Some(b);
      user := b.user;
      SignalHostAndSettle(b);
    }

    /** Sets the five theme variables on the root element, one property at a time. */
    method ApplyTheme(theme: Option<ThemeParams>)
      modifies this`style
      ensures style == old(style) + ThemeVars(theme)
    {
      style := style[BgColorVar := BgColor(theme)];
      style := style[TextColorVar := TextColor(theme)];
      style := style[ButtonColorVar := ButtonColor(theme)];
      style := style[ButtonTextColorVar := ButtonTextColor(theme)];
      var textColorRgb := HexToRgb(TextColor(theme));
      style := style[TextColorRgbVar := RgbText(textColorRgb)];
      ThemeWrites(old(style), BgColor(theme), TextColor(theme), ButtonColor(theme), ButtonTextColor(theme), RgbText(textColorRgb));
    }

    /**
     * The guarded `ready()`/`expand()` calls, then `ready := true`; a throw
     * skips that and records the error instead.
     */
    method SignalHostAndSettle(b: Bridge)
      modifies this`hostCalls, this`ready, this`initDataError
      ensures hostCalls == old(hostCalls) + HostSignals(b)
      ensures ready == (SignalFailure(b).None? || old(ready))
      ensures initDataError ==
        if SignalFailure(b).Some? then Some(InitErrorPrefix + SignalFailure(b).value) else old(initDataError)
    {
      var thrown := SignalHost(b);
      if thrown.Some? {
        initDataError := Some(InitErrorPrefix + thrown.value);
      } else {
        ready := true;
      }
    }

    /** Calls the host's signal functions, reporting the message of the one that threw. */
    method SignalHost(b: Bridge) returns (thrown: Option<string>)
      modifies this`hostCalls
      ensures hostCalls == old(hostCalls) + HostSignals(b)
      ensures thrown == SignalFailure(b)
    {
      thrown := None;
      if b.ready.Some? && b.expand.Some? {
        hostCalls := hostCalls + [ReadySignal];
        if b.ready.value.Throws? {
          thrown := Some(b.ready.value.message);
        } else {
          hostCalls := hostCalls + [ExpandSignal];
          assert hostCalls == old(hostCalls) + [ReadySignal, ExpandSignal];
          if b.expand.value.Throws? {
            thrown := Some(b.expand.value.message);
          }
        }
      }
    }
  }

  /** `useTelegram`: the context value inside a provider, an error outside one. */
  function UseTelegram(context: Option<Session>): (r: Result<Session, string>)
    ensures r.Ok? <==> context.Some?
    ensures r.Ok? ==> r.value == context.value
    ensures r.Err? ==> r.error == OutsideProviderMessage
  {
    match context
    case Some(s) => Ok(s)
    case None => Err(OutsideProviderMessage)
  }
}
