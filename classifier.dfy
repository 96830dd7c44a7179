/** The keyword fallback of the e-waste image classifier (`ai_image_classifier.py`):
    when the vision model's reply carries no JSON, its free text is classified by
    priority-ordered substring tests, the first number in it is read as the device
    count, and the result is validated into the reply the booking flow shows.
    Confidences are in tenths (0.7 is 7). */
module Classifier {
  import opened Wrappers
  import Decimal

  // ---------------------------------------------------------------- text helpers

  predicate IsUpper(c: char) { 'A' <= c <= 'Z' }
  predicate IsLower(c: char) { 'a' <= c <= 'z' }
  predicate IsLetter(c: char) { IsUpper(c) || IsLower(c) }

  function LowerChar(c: char): char {
    if IsUpper(c) then (c as int + 32) as char else c
  }

  function UpperChar(c: char): char {
    if IsLower(c) then (c as int - 32) as char else c
  }

  /** `str.lower()` on ASCII letters. */
  function Lower(s: string): string {
    seq(|s|, i requires 0 <= i < |s| => LowerChar(s[i]))
  }

  /** `word` occurs in `text` starting at index `i`. */
  predicate OccursAt(text: string, word: string, i: int) {
    0 <= i <= |text| - |word| && text[i..i + |word|] == word
  }

  /** `word in text` for strings. */
  predicate Contains(text: string, word: string) {
    exists i :: 0 <= i <= |text| - |word| && OccursAt(text, word, i)
  }

  /** `any(keyword in text for keyword in words)`. */
  predicate AnyIn(text: string, words: seq<string>) {
    exists w :: w in words && Contains(text, w)
  }

  /** One character of `str.title()`: a letter is upper-cased at the start of a word
      and lower-cased inside one; anything else is kept. */
  function TitleChar(c: char, afterLetter: bool): char {
    if !IsLetter(c) then c else if afterLetter then LowerChar(c) else UpperChar(c)
  }

  function TitleFrom(s: string, afterLetter: bool): (r: string)
    ensures |r| == |s|
    ensures forall i :: 0 <= i < |s| ==>
      r[i] == TitleChar(s[i], if i == 0 then afterLetter else IsLetter(s[i - 1]))
  {
    if s == [] then [] else [TitleChar(s[0], afterLetter)] + TitleFrom(s[1..], IsLetter(s[0]))
  }

  /** `str.title()`: every letter that follows a non-letter, or starts the string, is
      upper-cased, every other letter lower-cased. */
  function Title(s: string): (r: string)
    ensures |r| == |s|
  {
    TitleFrom(s, false)
  }

  /** `str.replace("_", " ")`. */
  function UnderscoresToSpaces(s: string): string {
    seq(|s|, i requires 0 <= i < |s| => if s[i] == '_' then ' ' else s[i])
  }

  /** The message the fallback keeps: the text, cut to 200 characters plus "...". */
  function Truncate(text: string): (m: string)
    ensures |text| <= 200 ==> m == text
    ensures |text| > 200 ==> |m| == 203 && m[..200] == text[..200] && m[200..] == "..."
  {
    if |text| > 200 then text[..200] + "..." else text
  }

  // ---------------------------------------------------------------- keyword lists

  const LaptopKeywords: seq<string> := ["laptop", "computer", "notebook", "macbook", "pc", "keyboard",
                                        "trackpad", "screen", "display", "aluminum", "metal case"]
  const PhoneKeywords: seq<string> := ["phone", "smartphone", "mobile", "iphone", "android", "cell", "handset"]
  const IPhoneKeywords: seq<string> := ["iphone", "apple", "ios", "home button", "notch", "face id", "touch id"]
  const BatteryKeywords: seq<string> := ["battery", "power bank", "powerbank"]
  const TabletKeywords: seq<string> := ["tablet", "ipad", "e-reader", "touchscreen"]
  const ElectronicKeywords: seq<string> := [
    "phone", "smartphone", "mobile", "iphone", "android", "cell",
    "laptop", "computer", "notebook", "macbook", "pc",
    "tablet", "ipad", "e-reader", "touchscreen",
    "battery", "charger", "power bank", "powerbank",
    "electronic", "device", "gadget", "tech",
    "headphone", "earbud", "speaker", "camera",
    "watch", "smartwatch", "gaming", "console"]

  // ---------------------------------------------------------------- fallback parse

  function LaptopModel(lower: string): string {
    if Contains(lower, "macbook") then "MacBook"
    else if Contains(lower, "dell") then "Dell Laptop"
    else if Contains(lower, "hp") then "HP Laptop"
    else if Contains(lower, "lenovo") then "Lenovo Laptop"
    else "Laptop"
  }

  function IPhoneModel(lower: string): string {
    if AnyIn(lower, ["13", "thirteen", "pro max", "pro"]) then "iPhone 13"
    else if AnyIn(lower, ["12", "twelve"]) then "iPhone 12"
    else if AnyIn(lower, ["14", "fourteen"]) then "iPhone 14"
    else if AnyIn(lower, ["15", "fifteen"]) then "iPhone 15"
    else if AnyIn(lower, ["11", "eleven"]) then "iPhone 11"
    else if AnyIn(lower, ["x", "ten"]) then "iPhone X"
    else "iPhone"
  }

  function PhoneModel(lower: string): string {
    if AnyIn(lower, IPhoneKeywords) || Contains(lower, "iphone") then IPhoneModel(lower)
    else if Contains(lower, "android") || Contains(lower, "samsung") || Contains(lower, "galaxy") then "Android Phone"
    else "Smartphone"
  }

  datatype Device = Device(deviceType: string, deviceModel: string)

  /** The device type and model, by priority: laptop, phone, battery, tablet, other. */
  function DeviceOf(lower: string): (d: Device)
    ensures d.deviceModel in ModelsOf(d.deviceType)
  {
    if AnyIn(lower, LaptopKeywords) then Device("laptop", LaptopModel(lower))
    else if AnyIn(lower, PhoneKeywords) || AnyIn(lower, IPhoneKeywords) then Device("smartphone", PhoneModel(lower))
    else if AnyIn(lower, BatteryKeywords) then Device("battery", "Battery")
    else if AnyIn(lower, TabletKeywords) then Device("tablet", if Contains(lower, "ipad") then "iPad" else "Tablet")
    else Device("other", "Unknown Device")
  }

  /** The models each device type can carry. */
  function ModelsOf(deviceType: string): set<string> {
    match deviceType
    case "laptop" => {"MacBook", "Dell Laptop", "HP Laptop", "Lenovo Laptop", "Laptop"}
    case "smartphone" => {"iPhone 13", "iPhone 12", "iPhone 14", "iPhone 15", "iPhone 11", "iPhone X",
                          "iPhone", "Android Phone", "Smartphone"}
    case "battery" => {"Battery"}
    case "tablet" => {"iPad", "Tablet"}
    case _ => {"Unknown Device"}
  }

  /** The dict `_fallback_parse` returns. */
  datatype Parsed = Parsed(isElectronicWaste: bool, deviceCount: int, detectedDevices: seq<string>,
                           deviceType: string, deviceModel: string, confidence: int, message: string)

  function FallbackParse(text: string): (p: Parsed)
    ensures p.deviceCount >= 0 && p.message == Truncate(text)
  {
    var lower := Lower(text);
    var device := DeviceOf(lower);
    var electronic := AnyIn(lower, ElectronicKeywords);
    Parsed(electronic,
           match Decimal.FirstInteger(text) case Some(n) => n case None => if electronic then 1 else 0,
           if electronic then ["electronic device"] else [],
           device.deviceType, device.deviceModel,
           if electronic then 7 else 3,
           Truncate(text))
  }

  /** The categories are tried in priority order: a laptop keyword wins over every
      phone keyword, and battery and tablet apply only when nothing earlier matched. */
  lemma PriorityOrder(text: string)
    ensures var lower := Lower(text);
      var t := FallbackParse(text).deviceType;
      var phone := AnyIn(lower, PhoneKeywords) || AnyIn(lower, IPhoneKeywords);
      && (t == "laptop" <==> AnyIn(lower, LaptopKeywords))
      && (t == "smartphone" <==> !AnyIn(lower, LaptopKeywords) && phone)
      && (t == "battery" <==> !AnyIn(lower, LaptopKeywords) && !phone && AnyIn(lower, BatteryKeywords))
      && (t == "tablet" <==> !AnyIn(lower, LaptopKeywords) && !phone && !AnyIn(lower, BatteryKeywords)
                             && AnyIn(lower, TabletKeywords))
      && (t == "other" <==> !AnyIn(lower, LaptopKeywords) && !phone && !AnyIn(lower, BatteryKeywords)
                            && !AnyIn(lower, TabletKeywords))
  {
  }

  /** The electronic verdict, the detected devices and the confidence go together. */
  lemma VerdictAgrees(text: string)
    ensures var p := FallbackParse(text);
      && (p.isElectronicWaste <==> AnyIn(Lower(text), ElectronicKeywords))
      && (p.isElectronicWaste <==> p.detectedDevices == ["electronic device"])
      && (!p.isElectronicWaste <==> p.detectedDevices == [])
      && p.confidence == (if p.isElectronicWaste then 7 else 3)
  {
  }

  /** Matching ignores letter case. */
  lemma CaseInsensitive(t1: string, t2: string)
    requires Lower(t1) == Lower(t2)
    ensures FallbackParse(t1).deviceType == FallbackParse(t2).deviceType
    ensures FallbackParse(t1).deviceModel == FallbackParse(t2).deviceModel
    ensures FallbackParse(t1).isElectronicWaste == FallbackParse(t2).isElectronicWaste
  {
  }

  /** A number written into otherwise digit-free text is the device count. */
  lemma CountIsFirstNumber(pre: string, n: nat, post: string)
    requires forall i :: 0 <= i < |pre| ==> !Decimal.IsDigit(pre[i])
    requires post == [] || !Decimal.IsDigit(post[0])
    ensures FallbackParse(pre + Decimal.NatToString(n) + post).deviceCount == n
  {
    Decimal.FirstIntegerRoundTrip(pre, n, post);
  }

  /** Without any digit the count is 1 for electronic text and 0 otherwise. */
  lemma CountWithoutDigits(text: string)
    requires forall i :: 0 <= i < |text| ==> !Decimal.IsDigit(text[i])
    ensures FallbackParse(text).deviceCount == if FallbackParse(text).isElectronicWaste then 1 else 0
  {
  }

  /** A word with a character the text lacks does not occur in it. */
  lemma MissingLetter(text: string, word: string, j: nat)
    requires j < |word| && word[j] !in text
    ensures !Contains(text, word)
  {
  }

  lemma ScreenLacksDeviceWords()
    ensures !Contains("screen", "phone")
    ensures !Contains("screen", "smartphone")
    ensures !Contains("screen", "mobile")
    ensures !Contains("screen", "iphone")
    ensures !Contains("screen", "android")
    ensures !Contains("screen", "cell")
    ensures !Contains("screen", "laptop")
    ensures !Contains("screen", "computer")
    ensures !Contains("screen", "notebook")
    ensures !Contains("screen", "macbook")
    ensures !Contains("screen", "pc")
  {
    MissingLetter("screen", "phone", 0);
    MissingLetter("screen", "smartphone", 1);
    MissingLetter("screen", "mobile", 0);
    MissingLetter("screen", "iphone", 0);
    MissingLetter("screen", "android", 0);
    MissingLetter("screen", "cell", 2);
    MissingLetter("screen", "laptop", 0);
    MissingLetter("screen", "computer", 1);
    MissingLetter("screen", "notebook", 1);
    MissingLetter("screen", "macbook", 0);
    MissingLetter("screen", "pc", 0);
  }

  lemma ScreenLacksAccessoryWords()
    ensures !Contains("screen", "tablet")
    ensures !Contains("screen", "ipad")
    ensures !Contains("screen", "e-reader")
    ensures !Contains("screen", "touchscreen")
    ensures !Contains("screen", "battery")
    ensures !Contains("screen", "charger")
    ensures !Contains("screen", "power bank")
    ensures !Contains("screen", "powerbank")
    ensures !Contains("screen", "electronic")
    ensures !Contains("screen", "device")
    ensures !Contains("screen", "gadget")
    ensures !Contains("screen", "tech")
  {
    MissingLetter("screen", "tablet", 0);
    MissingLetter("screen", "ipad", 0);
    MissingLetter("screen", "e-reader", 1);
    MissingLetter("screen", "touchscreen", 0);
    MissingLetter("screen", "battery", 0);
    MissingLetter("screen", "charger", 1);
    MissingLetter("screen", "power bank", 0);
    MissingLetter("screen", "powerbank", 0);
    MissingLetter("screen", "electronic", 1);
    MissingLetter("screen", "device", 0);
    MissingLetter("screen", "gadget", 0);
    MissingLetter("screen", "tech", 0);
  }

  lemma ScreenLacksGadgetWords()
    ensures !Contains("screen", "headphone")
    ensures !Contains("screen", "earbud")
    ensures !Contains("screen", "speaker")
    ensures !Contains("screen", "camera")
    ensures !Contains("screen", "watch")
    ensures !Contains("screen", "smartwatch")
    ensures !Contains("screen", "gaming")
    ensures !Contains("screen", "console")
  {
    MissingLetter("screen", "headphone", 0);
    MissingLetter("screen", "earbud", 1);
    MissingLetter("screen", "speaker", 1);
    MissingLetter("screen", "camera", 1);
    MissingLetter("screen", "watch", 0);
    MissingLetter("screen", "smartwatch", 1);
    MissingLetter("screen", "gaming", 0);
    MissingLetter("screen", "console", 1);
  }

  /** "screen" contains none of the electronic keywords: each has a character
      "screen" lacks. */
  lemma ScreenNotElectronic()
    ensures !AnyIn("screen", ElectronicKeywords)
  {
    ScreenLacksDeviceWords();
    ScreenLacksAccessoryWords();
    ScreenLacksGadgetWords();
  }

  /** The type and the electronic verdict are decided by different keyword lists:
      "screen" is a laptop keyword but not an electronic one. */
  lemma ScreenIsLaptopButNotElectronic()
    ensures FallbackParse("screen").deviceType == "laptop"
    ensures !FallbackParse("screen").isElectronicWaste
  {
    assert Lower("screen") == "screen";
    assert OccursAt("screen", "screen", 0);
    assert Contains("screen", "screen");
    assert LaptopKeywords[7] == "screen";
    assert AnyIn("screen", LaptopKeywords);
    ScreenNotElectronic();
  }

  // ---------------------------------------------------------------- validation

  /** The dict `_validate_result` receives: any field may be missing. */
  datatype Raw = Raw(isElectronicWaste: Option<bool>, deviceCount: Option<int>,
                     detectedDevices: Option<seq<string>>, deviceType: Option<string>,
                     deviceModel: Option<string>, confidence: Option<int>, message: Option<string>)

  /** The classification the endpoint returns. The error reply has no device model. */
  datatype Verdict = Verdict(isElectronicWaste: bool, deviceCount: int, detectedDevices: seq<string>,
                             deviceType: string, deviceModel: Option<string>, confidence: int,
                             message: string, error: bool, userMessage: string)

  function AsRaw(p: Parsed): Raw {
    Raw(Some(p.isElectronicWaste), Some(p.deviceCount), Some(p.detectedDevices), Some(p.deviceType),
        Some(p.deviceModel), Some(p.confidence), Some(p.message))
  }

  /** The user-facing sentence for a device count. */
  function UserMessage(count: int, deviceType: string, deviceModel: string): string {
    if count == 0 then "Please upload an image of an electronic device for e-waste pickup."
    else if count == 1 then
      "Great! I can see 1 " + deviceModel + " (" + Title(UnderscoresToSpaces(deviceType))
      + "). This is valid for e-waste pickup."
    else
      "I can see " + Decimal.IntToString(count)
      + " electronic devices. Please upload one device at a time for better processing."
  }

  /** `_validate_result`: missing fields take their defaults, `error` is false, and the
      user message follows the count. */
  function ValidateResult(r: Raw): (v: Verdict)
    ensures !v.error && v.deviceModel.Some?
    ensures v.deviceCount == r.deviceCount.GetOr(0) && v.deviceType == r.deviceType.GetOr("other")
    ensures v.userMessage == UserMessage(v.deviceCount, v.deviceType, v.deviceModel.value)
  {
    var count := r.deviceCount.GetOr(0);
    var deviceType := r.deviceType.GetOr("other");
    var model := r.deviceModel.GetOr("Unknown Device");
    Verdict(r.isElectronicWaste.GetOr(false), count, r.detectedDevices.GetOr([]), deviceType,
            Some(model), r.confidence.GetOr(0), r.message.GetOr(""), false,
            UserMessage(count, deviceType, model))
  }

  /** The reply of `classify_image` when preprocessing or analysis raised `e`. */
  function ErrorVerdict(e: string): (v: Verdict)
    ensures v.error && !v.isElectronicWaste && v.deviceCount == 0 && v.detectedDevices == []
    ensures v.deviceModel.None? && v.confidence == 0
  {
    Verdict(false, 0, [], "other", None, 0, "Error processing image: " + e,
            true, "Please upload a valid image of an electronic device.")
  }

  /** Title-casing a lower-case word capitalises its first letter and nothing else. */
  lemma TitleOfLowerWord(s: string)
    requires |s| > 0 && forall i :: 0 <= i < |s| ==> IsLower(s[i])
    ensures Title(UnderscoresToSpaces(s)) == [UpperChar(s[0])] + s[1..]
  {
    assert UnderscoresToSpaces(s) == s;
    var r := Title(s);
    forall i | 0 <= i < |s|
      ensures r[i] == ([UpperChar(s[0])] + s[1..])[i]
    {
      if i > 0 {
        assert IsLetter(s[i - 1]);
        assert r[i] == LowerChar(s[i]) == s[i];
      }
    }
  }

  /** Validating a fallback result keeps every field it had, and for digit-free text
      tells a non-electronic upload to retry and greets a single electronic device. */
  lemma ValidatedFallback(text: string)
    requires forall i :: 0 <= i < |text| ==> !Decimal.IsDigit(text[i])
    ensures var p := FallbackParse(text);
      var v := ValidateResult(AsRaw(p));
      && v.isElectronicWaste == p.isElectronicWaste && v.deviceType == p.deviceType
      && v.deviceModel == Some(p.deviceModel) && v.confidence == p.confidence && v.message == p.message
      && (!p.isElectronicWaste ==>
            v.userMessage == "Please upload an image of an electronic device for e-waste pickup.")
      && (p.isElectronicWaste ==>
            v.userMessage == "Great! I can see 1 " + p.deviceModel + " ("
                             + Title(UnderscoresToSpaces(p.deviceType)) + "). This is valid for e-waste pickup.")
  {
    CountWithoutDigits(text);
  }
}
