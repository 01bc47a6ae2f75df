/**
 * `getImageUrl`: turns whatever the API returned for an image (nothing, a
 * path, an absolute URL or an object describing an upload) into a URL the
 * page can load. Relative paths are served under the application's base
 * path "/Module_10/".
 */
module ImageUrl {
  import opened Text

  /** The source's `unknown` argument: `null`/`undefined`, a string, an object, or anything else. */
  datatype Unknown = Null | Str(s: string) | Obj(props: map<string, Unknown>) | Other

  const BasePath: string := "/Module_10/"
  const DefaultFallback: string := "avatar.png"

  /** The object keys searched for a path, in priority order. */
  const PossibleKeys: seq<string> := ["url", "path", "src", "imageUrl", "original", "secure_url", "image"]

  /** ASCII lower-casing, the case folding a non-Unicode `/i` regular expression applies to these letters. */
  function LowerAscii(c: char): char {
    if 'A' <= c <= 'Z' then (c as int + 32) as char else c
  }

  /** `s` starts with the lower-case text `p`, ignoring ASCII letter case. */
  predicate StartsWithIgnoringCase(s: string, p: string) {
    |p| <= |s| && forall k :: 0 <= k < |p| ==> LowerAscii(s[k]) == p[k]
  }

  /** `/^(https?:\/\/)/i.test(s)`. */
  predicate IsAbsoluteUrl(s: string) {
    StartsWithIgnoringCase(s, "http://") || StartsWithIgnoringCase(s, "https://")
  }

  /** `s.replace(/^\/+/, "")`: `s` without its run of leading slashes. */
  function StripLeadingSlashes(s: string): (r: string)
    ensures |r| <= |s| && r == s[|s| - |r|..]
    ensures forall k :: 0 <= k < |s| - |r| ==> s[k] == '/'
    ensures r == [] || r[0] != '/'
  {
    if s != [] && s[0] == '/' then StripLeadingSlashes(s[1..]) else s
  }

  /** The property `key` of an object holds a non-empty string. */
  predicate HasPath(props: map<string, Unknown>, key: string) {
    key in props && props[key].Str? && props[key].s != ""
  }

  /** The position in `keys` of the first key holding a non-empty string, or |keys| if none does. */
  function FirstPathIndex(props: map<string, Unknown>, keys: seq<string>): (i: nat)
    ensures i <= |keys|
    ensures forall j :: 0 <= j < i ==> !HasPath(props, keys[j])
    ensures i < |keys| ==> HasPath(props, keys[i])
  {
    if keys == [] then 0
    else if HasPath(props, keys[0]) then 0
    else 1 + FirstPathIndex(props, keys[1..])
  }

  /** `getImageUrl(image, fallback)`. */
  function GetImageUrl(image: Unknown, fallback: string): (r: string)
    ensures image == Null || image == Str("") || image == Other ==> r == fallback
    ensures image.Str? && image.s != "" && IsAbsoluteUrl(image.s) ==> r == image.s
    ensures image.Str? && image.s != "" && !IsAbsoluteUrl(image.s) ==>
      r == BasePath + StripLeadingSlashes(image.s)
    ensures image.Obj? ==>
      var i := FirstPathIndex(image.props, PossibleKeys);
      && (i == |PossibleKeys| ==> r == fallback)
      && (i < |PossibleKeys| ==> r == BasePath + StripLeadingSlashes(image.props[PossibleKeys[i]].s))
    ensures fallback != "" ==> r != ""
  {
    match image
    case Null => fallback
    case Other => fallback
    case Str(s) =>
      if s == "" then fallback
      else if IsAbsoluteUrl(s) then s
      else BasePath + StripLeadingSlashes(s)
    case Obj(props) =>
      var i := FirstPathIndex(props, PossibleKeys);
      if i < |PossibleKeys| then BasePath + StripLeadingSlashes(props[PossibleKeys[i]].s)
      else fallback
  }

  /**
   * Every result is the fallback, an absolute URL passed through unchanged, or
   * the base path followed by text that does not begin with '/'.
   */
  lemma ResultShape(image: Unknown, fallback: string)
    ensures var r := GetImageUrl(image, fallback);
      || r == fallback
      || (image.Str? && r == image.s && IsAbsoluteUrl(r))
      || (StartsWith(r, BasePath) && (|r| == |BasePath| || r[|BasePath|] != '/'))
  {
    var r := GetImageUrl(image, fallback);
    if r != fallback && !(image.Str? && r == image.s && IsAbsoluteUrl(r)) {
      var t := if image.Str? then image.s else image.props[PossibleKeys[FirstPathIndex(image.props, PossibleKeys)]].s;
      assert r == BasePath + StripLeadingSlashes(t);
      assert r[..|BasePath|] == BasePath;
    }
  }

  /**
   * An object's path is served under the base path even when it is an
   * absolute URL, unlike the same text passed as a plain string.
   */
  lemma ObjectUrlIsPrefixed(u: string, fallback: string)
    requires u != [] && u[0] != '/'
    ensures GetImageUrl(Obj(map["src" := Str(u)]), fallback) == BasePath + u
    ensures IsAbsoluteUrl(u) ==> GetImageUrl(Str(u), fallback) == u
  {
    var props := map["src" := Str(u)];
    assert "url" !in props && "path" !in props && HasPath(props, "src");
    assert PossibleKeys[0] == "url" && PossibleKeys[1] == "path" && PossibleKeys[2] == "src";
    assert FirstPathIndex(props, PossibleKeys) == 2;
  }
}
