/** Push subscription helpers: conversion of the VAPID public key from the
    URL-safe base64 alphabet (RFC 4648 section 5) to bytes, subscribe and
    unsubscribe guarded by the current user, and the relay request sent for a
    stored subscription. `window.atob` is a parameter: a decoder that returns
    the binary string, or `None` where it throws. */
module PushNotifications {
  import opened Common

  /** The key the subscribe call converts; the source ships this placeholder. */
  const PublicVapidKey := "YOUR_PUBLIC_VAPID_KEY"

  /** `(4 - len % 4) % 4`: the number of `=` that bring the length to a multiple of 4. */
  function PaddingLength(len: nat): (n: nat)
    ensures n < 4 && (len + n) % 4 == 0
    ensures n == 0 <==> len % 4 == 0
  {
    (4 - len % 4) % 4
  }

  function Repeat(c: char, n: nat): (r: string)
    ensures |r| == n && forall i :: 0 <= i < n ==> r[i] == c
  {
    seq(n, _ => c)
  }

  /** `base64String + '='.repeat(padding)`. */
  function Padded(s: string): (r: string)
    ensures |r| % 4 == 0 && |r| == |s| + PaddingLength(|s|) && r[..|s|] == s
    ensures forall i :: |s| <= i < |r| ==> r[i] == '='
  {
    s + Repeat('=', PaddingLength(|s|))
  }

  /** `s.replace(/from/g, to)` for a one-character pattern. */
  function ReplaceAll(s: string, from: char, to: char): (r: string)
    ensures |r| == |s|
    ensures forall i :: 0 <= i < |s| ==> r[i] == if s[i] == from then to else s[i]
  {
    seq(|s|, i requires 0 <= i < |s| => if s[i] == from then to else s[i])
  }

  /** The RFC 4648 section 5 to section 4 alphabet change of one character. */
  function ToStandardChar(c: char): char {
    if c == '-' then '+' else if c == '_' then '/' else c
  }

  /** The RFC 4648 section 4 to section 5 alphabet change of one character. */
  function ToUrlSafeChar(c: char): char {
    if c == '+' then '-' else if c == '/' then '_' else c
  }

  /** The padded, standard-alphabet string handed to `atob`. Every `-` becomes
      `+`, every `_` becomes `/`, other characters and their positions stay. */
  function StandardBase64(base64String: string): (r: string)
    ensures |r| % 4 == 0 && |r| == |base64String| + PaddingLength(|base64String|)
    ensures forall i :: 0 <= i < |base64String| ==> r[i] == ToStandardChar(base64String[i])
    ensures forall i :: |base64String| <= i < |r| ==> r[i] == '='
    ensures '-' !in r && '_' !in r
  {
    ReplaceAll(ReplaceAll(Padded(base64String), '-', '+'), '_', '/')
  }

  /** An element of a `Uint8Array`. */
  newtype Uint8 = x: int | 0 <= x < 256

  /** `Uint8Array` element assignment (ToUint8): the value modulo 256. */
  function ToUint8(n: nat): (b: Uint8)
    ensures b as int == n % 256
    ensures n < 256 ==> b as int == n
  {
    (n % 256) as Uint8
  }

  /** `urlBase64ToUint8Array`: pad, change alphabet, decode with `atob`, then copy
      each character code into a fresh `Uint8Array` of the decoded length. */
  method UrlBase64ToUint8Array(base64String: string, atob: string -> Option<string>) returns (bytes: Option<seq<Uint8>>)
    ensures bytes.Some? <==> atob(StandardBase64(base64String)).Some?
    ensures bytes.Some? ==>
              var raw := atob(StandardBase64(base64String)).value;
              |bytes.value| == |raw| && forall i :: 0 <= i < |raw| ==> bytes.value[i] == ToUint8(raw[i] as nat)
  {
    var base64 := StandardBase64(base64String);
    var decoded := atob(base64);
    if decoded.None? {
      return None;
    }
    var rawData := decoded.value;
    var outputArray := new Uint8[|rawData|];
    for i := 0 to |rawData|
      invariant forall j :: 0 <= j < i ==> outputArray[j] == ToUint8(rawData[j] as nat)
    {
      outputArray[i] := ToUint8(rawData[i] as nat);
    }
    bytes := Some(outputArray[..]);
  }

  predicate IsStandardChar(c: char) {
    ('A' <= c <= 'Z') || ('a' <= c <= 'z') || ('0' <= c <= '9') || c == '+' || c == '/'
  }

  predicate IsUrlSafeChar(c: char) {
    ('A' <= c <= 'Z') || ('a' <= c <= 'z') || ('0' <= c <= '9') || c == '-' || c == '_'
  }

  /** The number of `=` at the end of `s`. */
  function TrailingPad(s: string): (n: nat)
    ensures n <= |s|
    ensures forall i :: |s| - n <= i < |s| ==> s[i] == '='
    ensures n < |s| ==> s[|s| - 1 - n] != '='
    decreases |s|
  {
    if s == [] || s[|s| - 1] != '=' then 0
    else 1 + TrailingPad(s[..|s| - 1])
  }

  /** The shape RFC 4648 section 4 gives an encoded string: whole quanta of
      four characters, alphabet characters, and at most two `=` at the end. */
  predicate WellPadded(s: string) {
    |s| % 4 == 0 && TrailingPad(s) <= 2 &&
    forall i :: 0 <= i < |s| - TrailingPad(s) ==> IsStandardChar(s[i])
  }

  /** The URL-safe text of an RFC 4648 section 4 encoding with its padding dropped. */
  function UrlSafeUnpadded(encoded: string): (r: string)
    ensures |r| == |encoded| - TrailingPad(encoded)
  {
    var body := encoded[..|encoded| - TrailingPad(encoded)];
    seq(|body|, i requires 0 <= i < |body| => ToUrlSafeChar(body[i]))
  }

  lemma {:induction false} TrailingPadOfPadding(body: string, k: nat)
    requires body == [] || body[|body| - 1] != '='
    ensures TrailingPad(body + Repeat('=', k)) == k
    decreases k
  {
    var s := body + Repeat('=', k);
    if k == 0 {
      assert s == body;
    } else {
      assert s[..|s| - 1] == body + Repeat('=', k - 1);
      TrailingPadOfPadding(body, k - 1);
    }
  }

  /** The conversion completes the round trip from the standard alphabet: a
      RFC 4648 section 4 encoding, written in the URL-safe alphabet without padding,
      converts back to exactly that encoding. */
  lemma UrlSafeRoundTrip(encoded: string)
    requires WellPadded(encoded)
    ensures StandardBase64(UrlSafeUnpadded(encoded)) == encoded
  {
    var p := TrailingPad(encoded);
    var u := UrlSafeUnpadded(encoded);
    PaddingOfUnpadded(|encoded|, p);
    var r := StandardBase64(u);
    assert |r| == |encoded|;
    forall i | 0 <= i < |r|
      ensures r[i] == encoded[i]
    {
      if i < |u| {
        StandardCharRoundTrip(encoded[i]);
      }
    }
  }

  /** Dropping at most two `=` from a whole number of quanta is undone by
      the padding. */
  lemma PaddingOfUnpadded(len: nat, p: nat)
    requires len % 4 == 0 && p <= 2 && p <= len
    ensures PaddingLength(len - p) == p
  {
  }

  /** A standard-alphabet character survives the change to the URL-safe
      alphabet and back. */
  lemma StandardCharRoundTrip(c: char)
    requires IsStandardChar(c)
    ensures ToStandardChar(ToUrlSafeChar(c)) == c
  {
  }

  /** The converted string is the converted characters followed by the padding. */
  lemma StandardBase64Split(u: string)
    ensures StandardBase64(u) == StandardBase64(u)[..|u|] + Repeat('=', PaddingLength(|u|))
  {
    var r := StandardBase64(u);
    var t := r[..|u|] + Repeat('=', PaddingLength(|u|));
    assert |t| == |r|;
    forall i | 0 <= i < |r|
      ensures r[i] == t[i]
    {
      if i >= |u| {
        assert t[i] == Repeat('=', PaddingLength(|u|))[i - |u|];
      }
    }
  }

  /** A non-empty converted key ends in exactly its padding. */
  lemma TrailingPadOfConverted(u: string)
    requires u != [] && u[|u| - 1] != '='
    ensures TrailingPad(StandardBase64(u)) == PaddingLength(|u|)
  {
    var r := StandardBase64(u);
    StandardBase64Split(u);
    assert r[..|u|][|u| - 1] == ToStandardChar(u[|u| - 1]);
    TrailingPadOfPadding(r[..|u|], PaddingLength(|u|));
  }

  /** URL-safe characters convert to standard-alphabet characters. */
  lemma ConvertedAlphabet(u: string)
    requires forall i :: 0 <= i < |u| ==> IsUrlSafeChar(u[i])
    ensures forall i :: 0 <= i < |u| ==> IsStandardChar(StandardBase64(u)[i])
  {
    forall i | 0 <= i < |u|
      ensures IsStandardChar(StandardBase64(u)[i])
    {
      assert StandardBase64(u)[i] == ToStandardChar(u[i]);
    }
  }

  lemma WellPaddedWhenAlphabetBody(r: string, n: nat)
    requires |r| % 4 == 0 && n <= |r| && TrailingPad(r) == |r| - n
    requires forall i :: 0 <= i < n ==> IsStandardChar(r[i])
    ensures WellPadded(r) <==> TrailingPad(r) <= 2
  {
  }

  lemma PaddingLengthThree(len: nat)
    ensures PaddingLength(len) == 3 <==> len % 4 == 1
  {
  }

  /** A URL-safe key converts to a well-shaped RFC 4648 section 4 string exactly when
      its length is not 1 more than a multiple of 4: such a length gets three
      `=`, which no RFC 4648 section 4 encoding ends with. */
  lemma PaddedShape(u: string)
    requires forall i :: 0 <= i < |u| ==> IsUrlSafeChar(u[i])
    ensures WellPadded(StandardBase64(u)) <==> |u| % 4 != 1
  {
    if u == [] {
      assert StandardBase64(u) == [];
    } else {
      TrailingPadOfConverted(u);
      ConvertedAlphabet(u);
      PaddingLengthThree(|u|);
      WellPaddedWhenAlphabetBody(StandardBase64(u), |u|);
    }
  }

  /** The shipped placeholder key is 21 characters long, so it is padded with
      three `=` and is not an RFC 4648 section 4 encoding. */
  lemma PlaceholderKeyIsMalformed()
    ensures |StandardBase64(PublicVapidKey)| == 24
    ensures TrailingPad(StandardBase64(PublicVapidKey)) == 3
    ensures !WellPadded(StandardBase64(PublicVapidKey))
  {
    assert |PublicVapidKey| == 21;
    assert PublicVapidKey[20] == 'Y';
    assert PaddingLength(21) == 3;
    TrailingPadOfConverted(PublicVapidKey);
    assert TrailingPad(StandardBase64(PublicVapidKey)) == 3;
  }

  /** The writes `subscribeUserToPush` makes. Nothing happens without a
      current user. If the key does not decode, or the push service refuses
      (`pushSubscription` is `None`), the error is caught and nothing is
      written; otherwise the serialised subscription is merged into the
      user's document. A rejected `setDoc` is caught by the same handler and
      also stores nothing, so it is expressed by `pushSubscription == None`
      as well. */
  function SubscribeWrites(currentUser: Option<string>, atob: string -> Option<string>, pushSubscription: Option<string>)
    : (writes: seq<UserWrite>)
    ensures currentUser.None? ==> writes == []
    ensures writes != [] <==> currentUser.Some? && atob(StandardBase64(PublicVapidKey)).Some? && pushSubscription.Some?
    ensures writes != [] ==> writes == [SetPushSubscription(currentUser.value, pushSubscription)]
  {
    if currentUser.Some? && atob(StandardBase64(PublicVapidKey)).Some? && pushSubscription.Some?
    then [SetPushSubscription(currentUser.value, pushSubscription)]
    else []
  }

  /** `subscribeUserToPush`: the key is converted, then the subscription stored. */
  method SubscribeUserToPush(currentUser: Option<string>, atob: string -> Option<string>, pushSubscription: Option<string>)
    returns (writes: seq<UserWrite>)
    ensures writes == SubscribeWrites(currentUser, atob, pushSubscription)
  {
    if currentUser.None? {
      return [];
    }
    var applicationServerKey := UrlBase64ToUint8Array(PublicVapidKey, atob);
    if applicationServerKey.None? || pushSubscription.None? {
      return [];
    }
    writes := [SetPushSubscription(currentUser.value, pushSubscription)];
  }

  /** `unsubscribeUserFromPush`. Nothing happens without a current user; when the
      service-worker calls succeed, a null subscription is merged into the
      user's document. `serviceWorkerOk` also covers that `setDoc`: any of
      these rejecting is caught, and nothing is stored. */
  function UnsubscribeUserFromPush(currentUser: Option<string>, serviceWorkerOk: bool): (writes: seq<UserWrite>)
    ensures currentUser.None? ==> writes == []
    ensures forall k :: 0 <= k < |writes| ==> writes[k] == SetPushSubscription(currentUser.value, None)
    ensures |writes| == if currentUser.Some? && serviceWorkerOk then 1 else 0
  {
    if currentUser.Some? && serviceWorkerOk then [SetPushSubscription(currentUser.value, None)] else []
  }

  /** The `pushSubscription` field of `users/{uid}` after `writes` are merged. */
  function SubscriptionAfter(stored: Option<string>, uid: string, writes: seq<UserWrite>): (r: Option<string>)
    ensures r == stored || exists k :: 0 <= k < |writes| && writes[k] == SetPushSubscription(uid, r)
    decreases |writes|
  {
    if writes == [] then stored
    else
      var next := if writes[0].SetPushSubscription? && writes[0].uid == uid then writes[0].subscription else stored;
      var r := SubscriptionAfter(next, uid, writes[1..]);
      assert forall k :: 0 <= k < |writes[1..]| ==> writes[1..][k] == writes[k + 1];
      r
  }

  /** The request posted to `/api/send-push-notification`. */
  datatype RelayRequest = RelayRequest(subscription: string, title: string, body: string)

  /** `sendPushNotification`: a relay request goes out only when the stored
      subscription is truthy (present, not null, not empty). */
  function SendPushNotification(storedSubscription: Option<string>, title: string, body: string): (r: Option<RelayRequest>)
    ensures r.Some? <==> Truthy(storedSubscription)
    ensures r.Some? ==> r.value.subscription == storedSubscription.value && r.value.title == title && r.value.body == body
  {
    if Truthy(storedSubscription) then Some(RelayRequest(storedSubscription.value, title, body)) else None
  }

  /** Once a user has unsubscribed, no relay request is sent for them. */
  lemma NoRelayAfterUnsubscribe(stored: Option<string>, uid: string, title: string, body: string)
    ensures SendPushNotification(SubscriptionAfter(stored, uid, UnsubscribeUserFromPush(Some(uid), true)), title, body) == None
  {
    var writes := UnsubscribeUserFromPush(Some(uid), true);
    assert writes[1..] == [];
  }
}
