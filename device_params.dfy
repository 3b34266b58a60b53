/**
 * Strings exchanged with the Cardboard SDK about viewer parameters: the URI
 * handed to the SDK when parameters are saved, and the substitution that
 * turns base64 in the standard alphabet (section 4 of RFC 4648) into the
 * URL- and filename-safe alphabet (section 5 of RFC 4648).
 */
module DeviceParams {
  import opened Wrappers

  /** The URI saved when no encoded parameters are given. */
  const DefaultViewerUri: string := "https://g.co/cardboard"

  /** The URI prefix followed by encoded parameters. */
  const ConfigUriPrefix: string := "https://google.com/cardboard/cfg?p="

  /** The URI SaveDeviceParams hands to the SDK for encoded parameters. */
  function BuildUri(encoded: string): (uri: string)
    ensures encoded == [] ==> uri == DefaultViewerUri
    ensures encoded != [] ==> ConfigUriPrefix <= uri && uri[|ConfigUriPrefix|..] == encoded
  {
    if encoded == [] then DefaultViewerUri else ConfigUriPrefix + encoded
  }

  /** Reads the encoded parameters back out of a URI that BuildUri could have
      produced; None for any other URI. */
  function EncodedFromUri(uri: string): (encoded: Option<string>)
  {
    if uri == DefaultViewerUri then Some([])
    else if ConfigUriPrefix <= uri && |uri| > |ConfigUriPrefix| then Some(uri[|ConfigUriPrefix|..])
    else None
  }

  /** The encoded parameters are recovered from the URI, so BuildUri loses
      nothing and two different inputs never give the same URI. */
  lemma BuildUriRoundTrip(encoded: string)
    ensures EncodedFromUri(BuildUri(encoded)) == Some(encoded)
  {
    if encoded != [] {
      var uri := BuildUri(encoded);
      assert |uri| > |DefaultViewerUri|;
    }
  }

  lemma BuildUriInjective(a: string, b: string)
    requires BuildUri(a) == BuildUri(b)
    ensures a == b
  {
    BuildUriRoundTrip(a);
    BuildUriRoundTrip(b);
  }

  /** s with every `from` replaced by `to` (FString::ReplaceCharInline). */
  function ReplaceChar(s: string, from: char, to: char): (r: string)
    ensures |r| == |s|
    ensures forall i :: 0 <= i < |s| ==> r[i] == (if s[i] == from then to else s[i])
  {
    if s == [] then []
    else [if s[0] == from then to else s[0]] + ReplaceChar(s[1..], from, to)
  }

  /** The substitution GetSavedDeviceParams and GetCardboardV1DeviceParams
      apply to the base64 text: '/' becomes '_', then '+' becomes '-'. */
  function ToUrlSafe(s: string): (r: string)
    ensures |r| == |s|
    ensures forall i :: 0 <= i < |s| ==>
      r[i] == (if s[i] == '/' then '_' else if s[i] == '+' then '-' else s[i])
    ensures '/' !in r && '+' !in r
  {
    ReplaceChar(ReplaceChar(s, '/', '_'), '+', '-')
  }

  /** The reverse substitution, from the URL-safe alphabet to the standard one. */
  function FromUrlSafe(s: string): (r: string)
    ensures |r| == |s|
  {
    ReplaceChar(ReplaceChar(s, '_', '/'), '-', '+')
  }

  predicate IsAlphaNumeric(c: char)
  {
    'A' <= c <= 'Z' || 'a' <= c <= 'z' || '0' <= c <= '9'
  }

  /** Text in the standard base64 alphabet, padding included. */
  predicate IsStandardBase64(s: string)
  {
    forall i :: 0 <= i < |s| ==> IsAlphaNumeric(s[i]) || s[i] in "+/="
  }

  /** Text in the URL- and filename-safe alphabet, padding included. */
  predicate IsUrlSafeBase64(s: string)
  {
    forall i :: 0 <= i < |s| ==> IsAlphaNumeric(s[i]) || s[i] in "-_="
  }

  /** The substitution maps the standard alphabet onto the URL-safe one and
      is undone by the reverse substitution, so no information is lost. */
  lemma ToUrlSafeRoundTrip(s: string)
    requires IsStandardBase64(s)
    ensures IsUrlSafeBase64(ToUrlSafe(s))
    ensures FromUrlSafe(ToUrlSafe(s)) == s
  {
    var u := ToUrlSafe(s);
    var back := FromUrlSafe(u);
    forall i | 0 <= i < |s|
      ensures IsAlphaNumeric(u[i]) || u[i] in "-_="
      ensures back[i] == s[i]
    {
      assert ReplaceChar(u, '_', '/')[i] == (if u[i] == '_' then '/' else u[i]);
    }
  }

  /** The substitution changes nothing exactly when the text holds neither
      '/' nor '+'. */
  lemma ToUrlSafeIdentity(s: string)
    ensures ToUrlSafe(s) == s <==> '/' !in s && '+' !in s
  {
    if '/' !in s && '+' !in s {
      forall i | 0 <= i < |s|
        ensures ToUrlSafe(s)[i] == s[i]
      {
        assert s[i] in s;
      }
    }
  }

  /** ReplaceCharInline: the characters of the string buffer are rewritten in
      place, one position at a time. */
  method ReplaceCharInline(a: array<char>, from: char, to: char)
    modifies a
    ensures a[..] == ReplaceChar(old(a[..]), from, to)
  {
    var i := 0;
    while i < a.Length
      invariant 0 <= i <= a.Length
      invariant forall j :: 0 <= j < i ==> a[j] == (if old(a[j]) == from then to else old(a[j]))
      invariant forall j :: i <= j < a.Length ==> a[j] == old(a[j])
    {
      if a[i] == from {
        a[i] := to;
      }
      i := i + 1;
    }
  }
}
