/**
 * The activity log's user-agent classifier: three independent first-match
 * chains of substring tests over the lower-cased user-agent header, one for
 * the operating system, one for the browser and one for the device class.
 */
module UserAgent {
  import opened Text

  datatype Os = Windows | MacOS | Linux | Android | IOS | UnknownOs
  datatype Browser = Edge | Chrome | Firefox | Safari | Opera | UnknownBrowser
  /** `UnknownDevice` is the value the source starts from; every path overwrites it. */
  datatype Device = Mobile | Tablet | Desktop | UnknownDevice

  datatype UaInfo = UaInfo(os: Os, browser: Browser, device: Device)

  function DetectOs(l: string): (r: Os)
    ensures r == Windows <==> Contains(l, "windows")
    ensures r == MacOS <==> !Contains(l, "windows") && (Contains(l, "mac os") || Contains(l, "macintosh"))
    ensures r == Linux <==>
      !Contains(l, "windows") && !Contains(l, "mac os") && !Contains(l, "macintosh") && Contains(l, "linux")
    ensures r == Android <==>
      !Contains(l, "windows") && !Contains(l, "mac os") && !Contains(l, "macintosh") && !Contains(l, "linux")
      && Contains(l, "android")
    ensures r == IOS <==>
      !Contains(l, "windows") && !Contains(l, "mac os") && !Contains(l, "macintosh") && !Contains(l, "linux")
      && !Contains(l, "android") && (Contains(l, "iphone") || Contains(l, "ipad"))
    ensures r == UnknownOs <==>
      !Contains(l, "windows") && !Contains(l, "mac os") && !Contains(l, "macintosh") && !Contains(l, "linux")
      && !Contains(l, "android") && !Contains(l, "iphone") && !Contains(l, "ipad")
  {
    if Contains(l, "windows") then Windows
    else if Contains(l, "mac os") || Contains(l, "macintosh") then MacOS
    else if Contains(l, "linux") then Linux
    else if Contains(l, "android") then Android
    else if Contains(l, "iphone") || Contains(l, "ipad") then IOS
    else UnknownOs
  }

  function DetectBrowser(l: string): (r: Browser)
    ensures r == Edge <==> Contains(l, "edg/")
    ensures r == Chrome <==> !Contains(l, "edg/") && Contains(l, "chrome") && Contains(l, "safari")
    ensures r == Firefox <==>
      !Contains(l, "edg/") && !(Contains(l, "chrome") && Contains(l, "safari")) && Contains(l, "firefox")
    ensures r == Safari <==> !Contains(l, "edg/") && !Contains(l, "firefox") && !Contains(l, "chrome") && Contains(l, "safari")
    ensures r == Opera <==>
      !Contains(l, "edg/") && !Contains(l, "firefox") && !Contains(l, "safari") && (Contains(l, "opera") || Contains(l, "opr/"))
    ensures r == UnknownBrowser <==>
      !Contains(l, "edg/") && !Contains(l, "firefox") && !Contains(l, "safari")
      && !Contains(l, "opera") && !Contains(l, "opr/")
  {
    if Contains(l, "edg/") then Edge
    else if Contains(l, "chrome") && Contains(l, "safari") then Chrome
    else if Contains(l, "firefox") then Firefox
    else if Contains(l, "safari") then Safari
    else if Contains(l, "opera") || Contains(l, "opr/") then Opera
    else UnknownBrowser
  }

  function DetectDevice(l: string): (r: Device)
    ensures r != UnknownDevice
    ensures r == Mobile <==> Contains(l, "mobile") || Contains(l, "android") || Contains(l, "iphone")
    ensures r == Tablet <==> r != Mobile && (Contains(l, "tablet") || Contains(l, "ipad"))
  {
    if Contains(l, "mobile") || Contains(l, "android") || Contains(l, "iphone") then Mobile
    else if Contains(l, "tablet") || Contains(l, "ipad") then Tablet
    else Desktop
  }

  /** `parse_user_agent`: every test is made on `ua.lower()`. */
  function ParseUserAgent(ua: string): (r: UaInfo)
    ensures r.device != UnknownDevice
  {
    var l := Lower(ua);
    UaInfo(DetectOs(l), DetectBrowser(l), DetectDevice(l))
  }

  // ---------------------------------------------------------------- lemmas

  /** The classification ignores the case of ASCII letters. */
  lemma ParseIgnoresCase(a: string, b: string)
    requires Lower(a) == Lower(b)
    ensures ParseUserAgent(a) == ParseUserAgent(b)
  {
  }

  /** The classification of `ua` and of `ua.lower()` coincide. */
  lemma ParseOfLowered(ua: string)
    ensures ParseUserAgent(Lower(ua)) == ParseUserAgent(ua)
  {
    LowerIdempotent(ua);
  }

  /** A desktop Windows header is classified through its lower-cased "Windows" marker. */
  lemma WindowsHeaderIsWindows()
    ensures ParseUserAgent("Mozilla/5.0 (Windows NT 10.0; Win64; x64)").os == Windows
  {
    var a, w, b := "Mozilla/5.0 (", "Windows", " NT 10.0; Win64; x64)";
    assert a + w + b == "Mozilla/5.0 (Windows NT 10.0; Win64; x64)";
    LowerAppend(a, w);
    LowerAppend(a + w, b);
    assert Lower(w) == "windows";
    assert OccursAt(Lower(w), "windows", 0);
    ContainsExtend(Lower(a), Lower(w), Lower(b), "windows");
  }

  /** "linux" is tested before "android": an Android user agent, which names Linux, reports Linux. */
  lemma LinuxBeforeAndroid(ua: string)
    requires Contains(Lower(ua), "linux") && Contains(Lower(ua), "android")
    requires !Contains(Lower(ua), "windows") && !Contains(Lower(ua), "mac os") && !Contains(Lower(ua), "macintosh")
    ensures ParseUserAgent(ua).os == Linux
    ensures ParseUserAgent(ua).device == Mobile
  {
  }

  /** Edge, whose user agent also names Chrome and Safari, is reported as Edge. */
  lemma EdgeBeforeChrome(ua: string)
    requires Contains(Lower(ua), "edg/")
    ensures ParseUserAgent(ua).browser == Edge
  {
  }

  /** A user agent naming both Chrome and Safari but not Edge is Chrome, whatever else it names. */
  lemma ChromeBeforeFirefoxAndSafari(ua: string)
    requires !Contains(Lower(ua), "edg/") && Contains(Lower(ua), "chrome") && Contains(Lower(ua), "safari")
    ensures ParseUserAgent(ua).browser == Chrome
  {
  }

  /** A Windows, Edge or Mobile verdict stays put whatever text is added around the header. */
  lemma FirstRulesSurviveExtension(a: string, ua: string, b: string)
    ensures ParseUserAgent(ua).os == Windows ==> ParseUserAgent(a + ua + b).os == Windows
    ensures ParseUserAgent(ua).browser == Edge ==> ParseUserAgent(a + ua + b).browser == Edge
    ensures ParseUserAgent(ua).device == Mobile ==> ParseUserAgent(a + ua + b).device == Mobile
  {
    MarkerSurvivesExtension(a, ua, b, "windows");
    MarkerSurvivesExtension(a, ua, b, "edg/");
    MarkerSurvivesExtension(a, ua, b, "mobile");
    MarkerSurvivesExtension(a, ua, b, "android");
    MarkerSurvivesExtension(a, ua, b, "iphone");
  }

  /** A marker found in the lower-cased header is still found once text is added around it. */
  lemma MarkerSurvivesExtension(a: string, ua: string, b: string, t: string)
    ensures Contains(Lower(ua), t) ==> Contains(Lower(a + ua + b), t)
  {
    LowerAppend(a + ua, b);
    LowerAppend(a, ua);
    assert Lower(a + ua + b) == Lower(a) + Lower(ua) + Lower(b);
    if Contains(Lower(ua), t) {
      ContainsExtend(Lower(a), Lower(ua), Lower(b), t);
    }
  }

  /** "ipad" alone makes a Tablet, but any mobile marker wins over it. */
  lemma MobileBeforeTablet(ua: string)
    requires Contains(Lower(ua), "ipad")
    ensures ParseUserAgent(ua).device == Tablet <==>
      !Contains(Lower(ua), "mobile") && !Contains(Lower(ua), "android") && !Contains(Lower(ua), "iphone")
  {
  }
}
