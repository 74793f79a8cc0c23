/** `parseUserAgent`: a short label for a session's user agent, a device glyph followed by the
    browser and, when one is recognised, " • " and the operating system. */
module UserAgent {
  import opened Js

  /** ASCII lower case. The patterns are all ASCII, and a case-insensitive JavaScript regular
      expression without the `u` flag never folds a non-ASCII character onto an ASCII one, so
      this folding decides the same matches. */
  function Lower(c: char): char {
    if 'A' <= c <= 'Z' then (c as int + 32) as char else c
  }

  predicate MatchesAt(s: string, pattern: string, i: int) {
    0 <= i && i + |pattern| <= |s| && forall k :: 0 <= k < |pattern| ==> Lower(s[i + k]) == Lower(pattern[k])
  }

  /** `/pattern/i.test(s)` for a pattern of plain characters. */
  predicate ContainsCI(s: string, pattern: string) {
    exists i :: 0 <= i <= |s| - |pattern| && MatchesAt(s, pattern, i)
  }

  const MobileGlyph: string := "\U{1F4F1} "
  const LaptopGlyph: string := "\U{1F4BB} "
  const Separator: string := " \U{2022} "
  const Unknown: string := "Desconocido"

  function DeviceOf(ua: string): (d: string)
    ensures d == MobileGlyph <==> ContainsCI(ua, "mobile") || ContainsCI(ua, "tablet")
    ensures d == MobileGlyph || d == LaptopGlyph
  {
    if ContainsCI(ua, "mobile") then MobileGlyph
    else if ContainsCI(ua, "tablet") then MobileGlyph
    else LaptopGlyph
  }

  /** The first operating system that matches, in the order Windows, Mac OS X, Linux,
      Android, iOS; "" when none does. */
  function OsOf(ua: string): (os: string)
    ensures os == "Windows" <==> ContainsCI(ua, "Windows")
    ensures os == "macOS" <==> !ContainsCI(ua, "Windows") && ContainsCI(ua, "Mac OS X")
    ensures os == "Linux" <==>
      !ContainsCI(ua, "Windows") && !ContainsCI(ua, "Mac OS X") && ContainsCI(ua, "Linux")
    ensures os == "Android" <==>
      !ContainsCI(ua, "Windows") && !ContainsCI(ua, "Mac OS X") && !ContainsCI(ua, "Linux")
      && ContainsCI(ua, "Android")
    ensures os == "iOS" <==>
      !ContainsCI(ua, "Windows") && !ContainsCI(ua, "Mac OS X") && !ContainsCI(ua, "Linux")
      && !ContainsCI(ua, "Android")
      && (ContainsCI(ua, "iPhone") || ContainsCI(ua, "iPad") || ContainsCI(ua, "iPod"))
    ensures os == "" <==>
      !ContainsCI(ua, "Windows") && !ContainsCI(ua, "Mac OS X") && !ContainsCI(ua, "Linux")
      && !ContainsCI(ua, "Android")
      && !ContainsCI(ua, "iPhone") && !ContainsCI(ua, "iPad") && !ContainsCI(ua, "iPod")
  {
    if ContainsCI(ua, "Windows") then "Windows"
    else if ContainsCI(ua, "Mac OS X") then "macOS"
    else if ContainsCI(ua, "Linux") then "Linux"
    else if ContainsCI(ua, "Android") then "Android"
    else if ContainsCI(ua, "iPhone") || ContainsCI(ua, "iPad") || ContainsCI(ua, "iPod") then "iOS"
    else ""
  }

  /** The first browser that matches, in the order Edge, Chrome (not Chromium), Safari (not
      Chrome), Firefox, Opera; "" when none does. */
  function BrowserOf(ua: string): (b: string)
    ensures b == "Edge" <==> ContainsCI(ua, "Edg/")
    ensures b == "Chrome" <==>
      !ContainsCI(ua, "Edg/") && ContainsCI(ua, "Chrome") && !ContainsCI(ua, "Chromium")
    ensures b == "Safari" <==>
      !ContainsCI(ua, "Edg/") && ContainsCI(ua, "Safari") && !ContainsCI(ua, "Chrome")
    ensures b == "Firefox" <==>
      && !ContainsCI(ua, "Edg/") && !(ContainsCI(ua, "Chrome") && !ContainsCI(ua, "Chromium"))
      && !(ContainsCI(ua, "Safari") && !ContainsCI(ua, "Chrome")) && ContainsCI(ua, "Firefox")
    ensures b == "Opera" <==>
      && !ContainsCI(ua, "Edg/") && !(ContainsCI(ua, "Chrome") && !ContainsCI(ua, "Chromium"))
      && !(ContainsCI(ua, "Safari") && !ContainsCI(ua, "Chrome")) && !ContainsCI(ua, "Firefox")
      && (ContainsCI(ua, "Opera") || ContainsCI(ua, "OPR"))
    ensures b == "" <==>
      && !ContainsCI(ua, "Edg/") && !(ContainsCI(ua, "Chrome") && !ContainsCI(ua, "Chromium"))
      && !(ContainsCI(ua, "Safari") && !ContainsCI(ua, "Chrome")) && !ContainsCI(ua, "Firefox")
      && !ContainsCI(ua, "Opera") && !ContainsCI(ua, "OPR")
  {
    if ContainsCI(ua, "Edg/") then "Edge"
    else if ContainsCI(ua, "Chrome") && !ContainsCI(ua, "Chromium") then "Chrome"
    else if ContainsCI(ua, "Safari") && !ContainsCI(ua, "Chrome") then "Safari"
    else if ContainsCI(ua, "Firefox") then "Firefox"
    else if ContainsCI(ua, "Opera") || ContainsCI(ua, "OPR") then "Opera"
    else ""
  }

  const OsNames: seq<string> := ["Windows", "macOS", "Linux", "Android", "iOS"]
  const BrowserNames: seq<string> := ["", "Edge", "Chrome", "Safari", "Firefox", "Opera"]

  function Label(device: string, browser: string, os: string): string {
    device + browser + (if os != "" then Separator + os else "")
  }

  function ParseUserAgent(userAgent: Option<string>): (r: string)
    ensures !Truthy(userAgent) ==> r == Unknown
    ensures Truthy(userAgent) ==>
      r == Label(DeviceOf(userAgent.value), BrowserOf(userAgent.value), OsOf(userAgent.value))
  {
    if !Truthy(userAgent) then Unknown
    else
      var ua := userAgent.value;
      Label(DeviceOf(ua), BrowserOf(ua), OsOf(ua))
  }

  // ---------------------------------------------------------------------------
  // Reading a label back

  predicate EndsWith(s: string, suffix: string) {
    |suffix| <= |s| && s[|s| - |suffix|..] == suffix
  }

  /** The first of `names` that the text ends with, after the separator; "" when none. */
  function OsSuffix(rest: string, names: seq<string>): (os: string)
    ensures os == "" || (os in names && EndsWith(rest, Separator + os))
  {
    if names == [] then ""
    else if EndsWith(rest, Separator + names[0]) then names[0]
    else OsSuffix(rest, names[1..])
  }

  predicate NoBullet(s: string) {
    forall k :: 0 <= k < |s| ==> s[k] != Separator[1]
  }

  /** The characters of a suffix sit at the end of the text. */
  lemma CharOfSuffix(rest: string, w: string, k: int)
    ensures EndsWith(rest, w) && 0 <= k < |w| ==> rest[|rest| - |w| + k] == w[k]
  {
    if EndsWith(rest, w) && 0 <= k < |w| {
      assert rest[|rest| - |w|..][k] == w[k];
    }
  }

  /** A text ends with at most one separator-and-name among names without a bullet. */
  lemma SuffixesAgree(rest: string, a: string, b: string)
    requires NoBullet(a) && NoBullet(b)
    requires EndsWith(rest, Separator + a) && EndsWith(rest, Separator + b)
    ensures a == b
  {
    var u, v := Separator + a, Separator + b;
    if |u| == |v| {
      assert u == rest[|rest| - |u|..] == v;
      assert a == u[3..] == v[3..] == b;
    } else if |u| < |v| {
      CharOfSuffix(rest, u, 1);
      CharOfSuffix(rest, v, |v| - |u| + 1);
      assert false;
    } else {
      CharOfSuffix(rest, v, 1);
      CharOfSuffix(rest, u, |u| - |v| + 1);
      assert false;
    }
  }

  lemma NamesHaveNoBullet()
    ensures forall o :: o in OsNames ==> NoBullet(o)
    ensures forall b :: b in BrowserNames ==> NoBullet(b)
  {
  }

  lemma OsSuffixOfLabel(browser: string, os: string)
    requires browser in BrowserNames && (os == "" || os in OsNames)
    ensures OsSuffix(browser + (if os != "" then Separator + os else ""), OsNames) == os
  {
    var rest := browser + (if os != "" then Separator + os else "");
    var found := OsSuffix(rest, OsNames);
    NamesHaveNoBullet();
    if os == "" {
      if found != "" {
        CharOfSuffix(rest, Separator + found, 1);
        assert false;
      }
    } else {
      assert rest[|rest| - |Separator + os|..] == Separator + os;
      if found != "" {
        SuffixesAgree(rest, found, os);
      } else {
        OsSuffixFindsListed(rest, OsNames, os);
      }
    }
  }

  /** A listed name the text ends with is found (though maybe an earlier one first). */
  lemma {:induction false} OsSuffixFindsListed(rest: string, names: seq<string>, os: string)
    requires os in names && os != "" && "" !in names && EndsWith(rest, Separator + os)
    ensures OsSuffix(rest, names) != ""
  {
    if names[0] != os && !EndsWith(rest, Separator + names[0]) {
      OsSuffixFindsListed(rest, names[1..], os);
    }
  }

  /** Splits a label into its device glyph, browser and operating system. */
  datatype Parts = Parts(device: string, browser: string, os: string)

  function Decode(text: string): Parts {
    if |text| < 2 then Parts("", "", "")
    else
      var rest := text[2..];
      var os := OsSuffix(rest, OsNames);
      var browser := if os == "" then rest else rest[..|rest| - |Separator| - |os|];
      Parts(text[..2], browser, os)
  }

  /** A label determines the device, the browser and the operating system it was built from. */
  lemma DecodeLabel(device: string, browser: string, os: string)
    requires device == MobileGlyph || device == LaptopGlyph
    requires browser in BrowserNames && (os == "" || os in OsNames)
    ensures Decode(Label(device, browser, os)) == Parts(device, browser, os)
  {
    var text := Label(device, browser, os);
    var tail := browser + (if os != "" then Separator + os else "");
    assert text == device + tail;
    assert text[2..] == tail;
    OsSuffixOfLabel(browser, os);
  }

  /** Labels of recognised agents are never the unknown label, and they start with a glyph. */
  lemma KnownAgentsAreLabelled(userAgent: Option<string>)
    ensures ParseUserAgent(userAgent) == Unknown <==> !Truthy(userAgent)
    ensures Truthy(userAgent) ==>
      StartsWith(ParseUserAgent(userAgent), MobileGlyph) || StartsWith(ParseUserAgent(userAgent), LaptopGlyph)
  {
    if Truthy(userAgent) {
      var r := ParseUserAgent(userAgent);
      assert r[..2] == DeviceOf(userAgent.value);
      assert r[0] != Unknown[0];
    }
  }

  /** Two agents get the same label exactly when they agree on device, browser and system. */
  lemma LabelIsFaithful(a: string, b: string)
    requires a != "" && b != ""
    ensures ParseUserAgent(Some(a)) == ParseUserAgent(Some(b)) <==>
      DeviceOf(a) == DeviceOf(b) && BrowserOf(a) == BrowserOf(b) && OsOf(a) == OsOf(b)
  {
    var pa := Parts(DeviceOf(a), BrowserOf(a), OsOf(a));
    var pb := Parts(DeviceOf(b), BrowserOf(b), OsOf(b));
    RecognisedNames(a);
    RecognisedNames(b);
    DecodeLabel(pa.device, pa.browser, pa.os);
    DecodeLabel(pb.device, pb.browser, pb.os);
    assert ParseUserAgent(Some(a)) == Label(pa.device, pa.browser, pa.os);
    assert ParseUserAgent(Some(b)) == Label(pb.device, pb.browser, pb.os);
  }

  /** Every agent is labelled with one of the known glyphs, browsers and systems. */
  lemma RecognisedNames(ua: string)
    ensures DeviceOf(ua) == MobileGlyph || DeviceOf(ua) == LaptopGlyph
    ensures BrowserOf(ua) in BrowserNames
    ensures OsOf(ua) == "" || OsOf(ua) in OsNames
  {
  }
}
