/**
 * Device classification (useDeviceDetection.ts): whether the app runs on a phone, a tablet
 * or a TV, decided on native platforms from what the Capacitor `Device` plugin reports, the
 * browser's user agent and the window size.
 */
module DeviceDetection {
  import opened Wrappers

  /** The hook's result record. */
  datatype DeviceInfo = DeviceInfo(
    isMobile: bool,
    isTablet: bool,
    isTV: bool,
    isTouchscreen: bool,
    platform: string,
    model: string)

  /** The state the hook starts from, before detection has finished. */
  function InitialDeviceInfo(): (d: DeviceInfo)
    ensures !d.isMobile && !d.isTablet && !d.isTV && !d.isTouchscreen
    ensures d.platform == "web" && d.model == ""
  {
    DeviceInfo(false, false, false, false, "web", "")
  }

  /** What the code reads from `window` and `navigator`. */
  datatype Browser = Browser(
    hasTouchStart: bool,
    maxTouchPoints: int,
    hasMatchMedia: bool,
    coarsePointer: bool,
    userAgent: string,
    innerWidth: int,
    innerHeight: int)

  /** What `Device.getInfo()` reports. */
  datatype PluginInfo = PluginInfo(platform: string, model: string, isVirtual: bool)

  /** The flags the user-agent regular expressions give when the plugin is unavailable. */
  datatype FallbackGuess = FallbackGuess(isMobile: bool, isTablet: bool, isTV: bool)

  /** The breakpoint from which an Android device counts as a tablet. */
  const MinTabletSize := 600

  /** A touch screen: touch events, touch points, or a coarse pointer media query. */
  function Touchscreen(b: Browser): (t: bool)
    ensures t <==> b.hasTouchStart || b.maxTouchPoints > 0 || (b.hasMatchMedia && b.coarsePointer)
  {
    var touch := b.hasTouchStart || b.maxTouchPoints > 0;
    if !touch && b.hasMatchMedia then b.coarsePointer else touch
  }

  /** `toLowerCase` on one character (ASCII letters). */
  function LowerChar(c: char): char
  {
    if 'A' <= c <= 'Z' then (c as int + 32) as char else c
  }

  function Lower(s: string): (r: string)
    ensures |r| == |s|
    ensures forall i :: 0 <= i < |s| ==> r[i] == LowerChar(s[i])
  {
    if s == [] then [] else [LowerChar(s[0])] + Lower(s[1..])
  }

  /** `s.includes(needle)`: `needle` is a prefix of some suffix of `s`. */
  predicate Contains(s: string, needle: string)
  {
    needle <= s || (s != [] && Contains(s[1..], needle))
  }

  /** An occurrence at any offset is found. */
  lemma {:induction false} ContainsAt(s: string, needle: string, i: nat)
    requires i + |needle| <= |s| && s[i..i + |needle|] == needle
    ensures Contains(s, needle)
  {
    if i > 0 {
      assert s[1..][i - 1..i - 1 + |needle|] == s[i..i + |needle|];
      ContainsAt(s[1..], needle, i - 1);
    }
  }

  /** Conversely, `Contains` only reports an occurrence that is there. */
  lemma {:induction false} ContainsHasOffset(s: string, needle: string) returns (i: nat)
    requires Contains(s, needle)
    ensures i + |needle| <= |s| && s[i..i + |needle|] == needle
  {
    if needle <= s {
      i := 0;
    } else {
      var j := ContainsHasOffset(s[1..], needle);
      assert s[1..][j..j + |needle|] == s[j + 1..j + 1 + |needle|];
      i := j + 1;
    }
  }

  predicate IsNative(platform: string)
  {
    platform == "ios" || platform == "android"
  }

  /** The TV indicators of a physical Android device. */
  predicate LooksLikeTV(model: string, userAgent: string)
  {
    var ua := Lower(userAgent);
    Contains(ua, "android tv") || Contains(ua, "googletv") || Contains(model, "tv")
  }

  /** The one kind a native device is classified as, or none. */
  datatype FormFactor = Phone | Tablet | Television | Unclassified

  /** The decision tree of lines 44-72. */
  function Classify(info: PluginInfo, userAgent: string, width: int, height: int): (f: FormFactor)
    ensures f == Unclassified <==> !IsNative(info.platform)
  {
    if !IsNative(info.platform) then Unclassified
    else if info.isVirtual then Phone
    else if info.platform == "ios" then
      (if Contains(info.model, "iPad") then Tablet else Phone)
    else if LooksLikeTV(info.model, userAgent) then Television
    else if width >= MinTabletSize || height >= MinTabletSize then Tablet
    else Phone
  }

  /** Emulators count as phones whatever their model or size. */
  lemma VirtualIsPhone(info: PluginInfo, userAgent: string, width: int, height: int)
    requires IsNative(info.platform) && info.isVirtual
    ensures Classify(info, userAgent, width, height) == Phone
  {
  }

  /** A physical iOS device is a tablet exactly when its model names an iPad; the user agent
      and the window size play no part. */
  lemma IosByModel(info: PluginInfo, userAgent: string, width: int, height: int)
    requires info.platform == "ios" && !info.isVirtual
    ensures Classify(info, userAgent, width, height) == Tablet <==> Contains(info.model, "iPad")
    ensures Classify(info, userAgent, width, height) == Phone <==> !Contains(info.model, "iPad")
  {
  }

  /** On a physical Android device the TV indicators win over the size test. */
  lemma AndroidTvWins(info: PluginInfo, userAgent: string, width: int, height: int)
    requires info.platform == "android" && !info.isVirtual
    ensures Classify(info, userAgent, width, height) == Television <==> LooksLikeTV(info.model, userAgent)
  {
  }

  /** A physical Android device that is not a TV is a tablet exactly when one side of the
      window reaches the breakpoint, and stays one on a larger window. */
  lemma AndroidBySize(info: PluginInfo, userAgent: string, width: int, height: int, width': int, height': int)
    requires info.platform == "android" && !info.isVirtual && !LooksLikeTV(info.model, userAgent)
    ensures Classify(info, userAgent, width, height) == Tablet <==> width >= MinTabletSize || height >= MinTabletSize
    ensures Classify(info, userAgent, width, height) == Phone <==> width < MinTabletSize && height < MinTabletSize
    ensures Classify(info, userAgent, width, height) == Tablet && width <= width' && height <= height' ==>
              Classify(info, userAgent, width', height') == Tablet
  {
  }

  /** A physical Android device whose user agent says "Android TV" anywhere, in any
      letter case, is a TV, whatever its model and window size. */
  lemma AndroidTvUserAgent(info: PluginInfo, userAgent: string, width: int, height: int, at: nat)
    requires info.platform == "android" && !info.isVirtual
    requires at + 10 <= |userAgent| && Lower(userAgent)[at..at + 10] == "android tv"
    ensures Classify(info, userAgent, width, height) == Television
  {
    ContainsAt(Lower(userAgent), "android tv", at);
  }

  /** The number of the three classification flags that are set. */
  function FlagCount(d: DeviceInfo): nat
  {
    (if d.isMobile then 1 else 0) + (if d.isTablet then 1 else 0) + (if d.isTV then 1 else 0)
  }

  /** `detectDevice`: the touch-screen test first, then the plugin, then the nested branches
      that set at most one flag; `plugin` is `None` where `Device.getInfo()` throws. */
  method DetectDevice(b: Browser, plugin: Option<PluginInfo>, fallback: FallbackGuess) returns (d: DeviceInfo)
    ensures d.isTouchscreen == Touchscreen(b)
    ensures plugin.None? ==>
              d == DeviceInfo(fallback.isMobile, fallback.isTablet, fallback.isTV, Touchscreen(b), "web", "")
    ensures plugin.Some? ==> d.platform == plugin.value.platform && d.model == plugin.value.model
    ensures plugin.Some? ==>
              var form := Classify(plugin.value, b.userAgent, b.innerWidth, b.innerHeight);
              d.isMobile == (form == Phone) && d.isTablet == (form == Tablet) && d.isTV == (form == Television)
    ensures plugin.Some? && IsNative(plugin.value.platform) ==> FlagCount(d) == 1
    ensures plugin.Some? && !IsNative(plugin.value.platform) ==> FlagCount(d) == 0
  {
    var isTouchscreen := b.hasTouchStart || b.maxTouchPoints > 0;
    if !isTouchscreen && b.hasMatchMedia {
      isTouchscreen := b.coarsePointer;
    }

    var platform := "web";
    var model := "";
    var isMobile, isTablet, isTV := false, false, false;

    match plugin {
      case None =>
        isMobile, isTablet, isTV := fallback.isMobile, fallback.isTablet, fallback.isTV;
      case Some(info) =>
        platform := info.platform;
        model := info.model;
        if platform == "ios" || platform == "android" {
          var screenWidth, screenHeight := b.innerWidth, b.innerHeight;
          var minTabletSize := MinTabletSize;
          if info.isVirtual {
            isMobile := true;
          } else if platform == "ios" {
            if Contains(model, "iPad") {
              isTablet := true;
            } else {
              isMobile := true;
            }
          } else if platform == "android" {
            var userAgent := Lower(b.userAgent);
            if Contains(userAgent, "android tv") || Contains(userAgent, "googletv") || Contains(model, "tv") {
              isTV := true;
            } else if screenWidth >= minTabletSize || screenHeight >= minTabletSize {
              isTablet := true;
            } else {
              isMobile := true;
            }
          }
        }
    }
    d := DeviceInfo(isMobile, isTablet, isTV, isTouchscreen, platform, model);
  }
}
