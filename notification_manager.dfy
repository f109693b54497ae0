/** The push-notification manager: it turns the APNs device token into the
    lower-case hexadecimal string that is handed to the push relay (the
    lower-case form of the base16 encoding of section 8 of RFC 4648), and it
    reacts to the authorization status the notification center reports. */
module NotificationManagement {
  import opened Common

  /** `token.map { String(format: "%02.2hhx", $0) }.joined()`: two lower-case
      digits per byte, high nibble first. */
  function TokenString(token: seq<Byte>): (s: string)
    ensures |s| == 2 * |token|
    ensures forall i :: 0 <= i < |s| ==> IsLowerHexDigit(s[i])
    ensures forall i :: 0 <= i < |token| ==>
              HexValue(s[2 * i]) == Some(token[i] / 16) && HexValue(s[2 * i + 1]) == Some(token[i] % 16)
  {
    forall i | 0 <= i < |token|
      ensures HexValue(EncodeHex(token, false)[2 * i]) == Some(token[i] / 16)
      ensures HexValue(EncodeHex(token, false)[2 * i + 1]) == Some(token[i] % 16)
    {
      EncodeHexAt(token, false, i);
    }
    forall i | 0 <= i < 2 * |token|
      ensures IsLowerHexDigit(EncodeHex(token, false)[i])
    {
      EncodeHexAt(token, false, i / 2);
    }
    EncodeHex(token, false)
  }

  /** Decoding the token string gives back the token bytes. */
  lemma TokenStringDecodes(token: seq<Byte>)
    ensures DecodeHex(TokenString(token)) == Some(token)
  {
    DecodeEncodeHex(token, false);
  }

  /** Two different tokens never produce the same string. */
  lemma TokenStringInjective(a: seq<Byte>, b: seq<Byte>)
    requires TokenString(a) == TokenString(b)
    ensures a == b
  {
    TokenStringDecodes(a);
    TokenStringDecodes(b);
  }

  /** The encoding works byte by byte: encoding a concatenation concatenates
      the encodings. */
  lemma TokenStringAppend(a: seq<Byte>, b: seq<Byte>)
    ensures TokenString(a + b) == TokenString(a) + TokenString(b)
  {
    EncodeHexAppend(a, b, false);
  }

  /** `UNAuthorizationStatus`; `Ephemeral` is the status the switch does not
      name and leaves to `@unknown default`. */
  datatype AuthorizationStatus = NotDetermined | Denied | Authorized | Provisional | Ephemeral

  /** What the manager goes on to do after reading the status. */
  datatype StatusReaction = RequestPermission | RegisterForRemoteNotifications | NoReaction

  class NotificationManager {
    var deviceToken: Option<string>
    var notificationPermissionGranted: bool

    constructor ()
      ensures deviceToken == None && !notificationPermissionGranted
    {
      deviceToken := None;
      notificationPermissionGranted := false;
    }

    /** `setDeviceToken(_:)`. */
    method SetDeviceToken(token: seq<Byte>)
      modifies this
      ensures deviceToken == Some(TokenString(token))
      ensures notificationPermissionGranted == old(notificationPermissionGranted)
    {
      deviceToken := Some(TokenString(token));
    }

    /** The status switch of `registerForPushNotifications()`. */
    method HandleAuthorizationStatus(status: AuthorizationStatus) returns (reaction: StatusReaction)
      modifies this
      ensures deviceToken == old(deviceToken)
      ensures status == NotDetermined ==>
                reaction == RequestPermission && notificationPermissionGranted == old(notificationPermissionGranted)
      ensures status == Authorized || status == Provisional ==>
                reaction == RegisterForRemoteNotifications && notificationPermissionGranted
      ensures status == Denied ==> reaction == NoReaction && !notificationPermissionGranted
      ensures status == Ephemeral ==>
                reaction == NoReaction && notificationPermissionGranted == old(notificationPermissionGranted)
    {
      match status
      case NotDetermined =>
        reaction := RequestPermission;
      case Authorized =>
        notificationPermissionGranted := true;
        reaction := RegisterForRemoteNotifications;
      case Provisional =>
        notificationPermissionGranted := true;
        reaction := RegisterForRemoteNotifications;
      case Denied =>
        notificationPermissionGranted := false;
        reaction := NoReaction;
      case Ephemeral =>
        reaction := NoReaction;
    }

    /** The completion of `requestPermission()`: the user's answer becomes the
        flag, and only a grant goes on to register for remote notifications. */
    method PermissionAnswered(granted: bool) returns (registers: bool)
      modifies this
      ensures notificationPermissionGranted == granted
      ensures registers == granted
      ensures deviceToken == old(deviceToken)
    {
      notificationPermissionGranted := granted;
      registers := granted;
    }
  }
}
