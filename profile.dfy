/**
  The profile screen: the labels it derives from camelCase keys, the rows it
  shows, the settings switches, the biometric-login toggle and the edit
  button. The device's biometric interface answers through parameters.
 */
module Profile {
  import opened Options
  import opened JsObject

  /** The characters the pattern `/([A-Z])/` matches. */
  predicate IsUpper(c: char) {
    'A' <= c <= 'Z'
  }

  predicate IsLower(c: char) {
    'a' <= c <= 'z'
  }

  /** `toUpperCase` on one character, for the ASCII letters. */
  function ToUpper(c: char): (u: char)
    ensures IsLower(c) ==> IsUpper(u) && u as int == c as int - ('a' as int - 'A' as int)
    ensures !IsLower(c) ==> u == c
  {
    if IsLower(c) then (c as int - 32) as char else c
  }

  /** `toLowerCase` on one character, for the ASCII letters. */
  function ToLower(c: char): (l: char)
    ensures IsUpper(c) ==> IsLower(l) && l as int == c as int + ('a' as int - 'A' as int)
    ensures !IsUpper(c) ==> l == c
  {
    if IsUpper(c) then (c as int + 32) as char else c
  }

  /** Upper-casing a letter and lower-casing it again gives the letter back,
      and the other way round. */
  lemma CaseRoundTrip(c: char)
    ensures IsLower(c) ==> ToLower(ToUpper(c)) == c
    ensures IsUpper(c) ==> ToUpper(ToLower(c)) == c
  {
  }

  /** How many characters of `s` are capitals A-Z. */
  function CountUpper(s: string): nat {
    if s == [] then 0 else (if IsUpper(s[0]) then 1 else 0) + CountUpper(s[1..])
  }

  /** What the replacement makes of one character. */
  function Spaced(c: char): string {
    if IsUpper(c) then [' ', c] else [c]
  }

  /** `s.replace(/([A-Z])/g, " $1")`: a space goes in front of every capital. */
  function SpaceBeforeCapitals(s: string): string {
    if s == [] then [] else Spaced(s[0]) + SpaceBeforeCapitals(s[1..])
  }

  /** The text without its spaces. */
  function DropSpaces(s: string): (r: string)
    ensures ' ' !in r
  {
    if s == [] then [] else (if s[0] == ' ' then [] else [s[0]]) + DropSpaces(s[1..])
  }

  /** The replacement adds one character per capital. */
  lemma {:induction false} SpaceBeforeCapitalsLength(s: string)
    ensures |SpaceBeforeCapitals(s)| == |s| + CountUpper(s)
  {
    if s != [] {
      SpaceBeforeCapitalsLength(s[1..]);
    }
  }

  /** Every capital of the result has a space in front of it. */
  lemma {:induction false} SpaceBeforeEveryCapital(s: string)
    ensures forall i :: 0 <= i < |SpaceBeforeCapitals(s)| && IsUpper(SpaceBeforeCapitals(s)[i]) ==>
              i > 0 && SpaceBeforeCapitals(s)[i - 1] == ' '
  {
    if s != [] {
      SpaceBeforeEveryCapital(s[1..]);
      var head := Spaced(s[0]);
      var tail := SpaceBeforeCapitals(s[1..]);
      var r := head + tail;
      assert SpaceBeforeCapitals(s) == r;
      forall i | 0 <= i < |r| && IsUpper(r[i]) ensures i > 0 && r[i - 1] == ' ' {
        if i >= |head| {
          assert r[i] == tail[i - |head|];
          if i - |head| == 0 {
            assert false;
          }
          assert r[i - 1] == tail[i - 1 - |head|];
        } else {
          assert r[i] == head[i];
          if i > 0 {
            assert r[i - 1] == head[i - 1];
          }
        }
      }
    }
  }

  /** Taking the spaces out again gives back a text that had none. */
  lemma {:induction false} DropSpacesUndoesSpacing(s: string)
    requires ' ' !in s
    ensures DropSpaces(SpaceBeforeCapitals(s)) == s
  {
    if s != [] {
      assert ' ' !in s[1..] by { assert forall j :: 0 <= j < |s[1..]| ==> s[1..][j] == s[j + 1]; }
      DropSpacesUndoesSpacing(s[1..]);
      DropSpacesAppend(Spaced(s[0]), SpaceBeforeCapitals(s[1..]));
      assert s == [s[0]] + s[1..];
    }
  }

  lemma {:induction false} DropSpacesAppend(x: string, y: string)
    ensures DropSpaces(x + y) == DropSpaces(x) + DropSpaces(y)
  {
    if x != [] {
      DropSpacesAppend(x[1..], y);
      assert (x + y)[1..] == x[1..] + y;
    } else {
      assert x + y == y;
    }
  }

  /** The label of a profile field:
      `key.charAt(0).toUpperCase() + key.slice(1).replace(/([A-Z])/g, " $1")`. */
  function FieldLabel(key: string): string {
    if key == [] then [] else [ToUpper(key[0])] + SpaceBeforeCapitals(key[1..])
  }

  /** The label of a setting: the replacement first, then its first character
      upper-cased. */
  function SettingLabel(key: string): string {
    var t := SpaceBeforeCapitals(key);
    if t == [] then [] else [ToUpper(t[0])] + t[1..]
  }

  /** A field label is one character longer than the key for every capital
      after the first character, and its first character is upper-cased. */
  lemma FieldLabelShape(key: string)
    requires key != []
    ensures |FieldLabel(key)| == |key| + CountUpper(key[1..])
    ensures FieldLabel(key)[0] == ToUpper(key[0])
    ensures FieldLabel(key)[1..] == SpaceBeforeCapitals(key[1..])
  {
    SpaceBeforeCapitalsLength(key[1..]);
  }

  /** For a key that does not start with a capital the two label formulas
      agree; for one that does, the settings formula keeps the leading space. */
  lemma {:induction false} SettingLabelAgreesWithFieldLabel(key: string)
    ensures key == [] || !IsUpper(key[0]) ==> SettingLabel(key) == FieldLabel(key)
    ensures key != [] && IsUpper(key[0]) ==> SettingLabel(key) == " " + FieldLabel(key)
  {
    if key != [] {
      var rest := SpaceBeforeCapitals(key[1..]);
      if IsUpper(key[0]) {
        assert SpaceBeforeCapitals(key) == Spaced(key[0]) + rest == [' ', key[0]] + rest;
        assert ([' ', key[0]] + rest)[1..] == [key[0]] + rest;
      } else {
        assert SpaceBeforeCapitals(key) == Spaced(key[0]) + rest == [key[0]] + rest;
        assert ([key[0]] + rest)[1..] == rest;
      }
    }
  }

  /** The key a field label was made from: the spaces taken out and the first
      character lower-cased. */
  function KeyOfLabel(text: string): string {
    var k := DropSpaces(text);
    if k == [] then [] else [ToLower(k[0])] + k[1..]
  }

  /** A camelCase key without spaces whose first character is a lower-case
      letter is recovered from its field label. */
  lemma FieldLabelRoundTrip(key: string)
    requires key != [] && IsLower(key[0]) && ' ' !in key
    ensures KeyOfLabel(FieldLabel(key)) == key
  {
    var rest := key[1..];
    assert ' ' !in rest by { assert forall j :: 0 <= j < |rest| ==> rest[j] == key[j + 1]; }
    DropSpacesUndoesSpacing(rest);
    var u := ToUpper(key[0]);
    assert FieldLabel(key) == [u] + SpaceBeforeCapitals(rest);
    DropSpacesAppend([u], SpaceBeforeCapitals(rest));
    assert DropSpaces([u]) == [u];
    var k := [u] + rest;
    assert DropSpaces(FieldLabel(key)) == k;
    assert k[0] == u && k[1..] == rest;
    assert ToLower(u) == key[0];
    assert key == [key[0]] + rest;
  }

  /** The replacement works character by character. */
  lemma {:induction false} SpaceBeforeCapitalsAppend(x: string, y: string)
    ensures SpaceBeforeCapitals(x + y) == SpaceBeforeCapitals(x) + SpaceBeforeCapitals(y)
  {
    if x != [] {
      SpaceBeforeCapitalsAppend(x[1..], y);
      var xy := x + y;
      assert xy[0] == x[0];
      assert xy[1..] == x[1..] + y;
    } else {
      assert x + y == y;
    }
  }

  /** A text made of lower-case letters only. */
  predicate AllLower(s: string) {
    forall i :: 0 <= i < |s| ==> IsLower(s[i])
  }

  /** The label of a lower-case word is the word itself. */
  lemma {:induction false} SpaceBeforeCapitalsLower(s: string)
    requires AllLower(s)
    ensures SpaceBeforeCapitals(s) == s
  {
    if s != [] {
      assert AllLower(s[1..]) by {
        assert forall i :: 0 <= i < |s[1..]| ==> s[1..][i] == s[i + 1];
      }
      SpaceBeforeCapitalsLower(s[1..]);
    }
  }

  /** The label of a capital followed by lower-case letters is that word
      with a space in front. */
  lemma SpaceBeforeCapitalisedWord(c: char, rest: string)
    requires IsUpper(c) && AllLower(rest)
    ensures SpaceBeforeCapitals([c] + rest) == [' ', c] + rest
  {
    var w := [c] + rest;
    assert w[0] == c && w[1..] == rest;
    SpaceBeforeCapitalsLower(rest);
  }

  /** The label of a camelCase key made of a lower-case word and one
      capitalised word is the two words with a space between them. */
  lemma TwoWordLabel(first: string, second: string)
    requires |first| >= 1 && |second| >= 1 && IsLower(first[0]) && IsUpper(second[0])
    requires AllLower(first[1..]) && AllLower(second[1..])
    ensures FieldLabel(first + second) == [ToUpper(first[0])] + first[1..] + " " + second
  {
    var key := first + second;
    var tail := first[1..];
    var c, rest := second[0], second[1..];
    assert second == [c] + rest;
    assert key[0] == first[0];
    assert key[1..] == tail + second;
    SpaceBeforeCapitalsLower(tail);
    SpaceBeforeCapitalsAppend(tail, second);
    SpaceBeforeCapitalisedWord(c, rest);
    assert [' ', c] + rest == " " + second;
    assert FieldLabel(key) == [ToUpper(first[0])] + SpaceBeforeCapitals(tail + second);
  }

  /** A key spelt as a lower-case word and one capitalised word has the
      label `text` the two words give, as a field and as a setting. */
  lemma TwoWordKeyLabel(first: string, second: string, key: string, text: string)
    requires |first| >= 1 && |second| >= 1 && IsLower(first[0]) && IsUpper(second[0])
    requires AllLower(first[1..]) && AllLower(second[1..])
    requires key == first + second && text == [ToUpper(first[0])] + first[1..] + " " + second
    ensures FieldLabel(key) == text
    ensures SettingLabel(key) == text
  {
    TwoWordLabel(first, second);
    assert key[0] == first[0];
    SettingLabelAgreesWithFieldLabel(key);
  }

  /** The label of the `fullName` field. */
  lemma FullNameLabel()
    ensures FieldLabel("fullName") == "Full Name"
  {
    TwoWordKeyLabel("full", "Name", "fullName", "Full Name");
  }

  /** The label of the `idNumber` field. */
  lemma IdNumberLabel()
    ensures FieldLabel("idNumber") == "Id Number"
  {
    TwoWordKeyLabel("id", "Number", "idNumber", "Id Number");
  }

  /** The entries of `es` other than the one under `hidden`, in their order. */
  function Hide<V>(es: seq<Entry<V>>, hidden: string): (r: seq<Entry<V>>)
    ensures forall i :: 0 <= i < |r| ==> r[i] in es && r[i].key != hidden
    ensures forall i :: 0 <= i < |es| && es[i].key != hidden ==> es[i] in r
  {
    if es == [] then []
    else (if es[0].key == hidden then [] else [es[0]]) + Hide(es[1..], hidden)
  }

  /** Hiding a key that is not there keeps every row, in order. */
  lemma {:induction false} HideAbsent<V>(es: seq<Entry<V>>, hidden: string)
    requires hidden !in Keys(es)
    ensures Hide(es, hidden) == es
  {
    if es != [] {
      assert Keys(es) == [es[0].key] + Keys(es[1..]);
      HideAbsent(es[1..], hidden);
      assert es == [es[0]] + es[1..];
    }
  }

  /** The entries after the first of an object still have distinct keys. */
  lemma DistinctTail<V>(es: seq<Entry<V>>)
    requires es != [] && DistinctKeys(es)
    ensures DistinctKeys(es[1..])
  {
    var tail := es[1..];
    forall a, b | 0 <= a < b < |tail| ensures tail[a].key != tail[b].key {
      assert tail[a] == es[a + 1] && tail[b] == es[b + 1];
    }
  }

  /** Hiding the first entry's key drops that entry alone. */
  lemma HideHead<V>(es: seq<Entry<V>>, hidden: string)
    requires DistinctKeys(es) && es != [] && es[0].key == hidden
    ensures Hide(es, hidden) == es[1..]
  {
    var tail := es[1..];
    forall j | 0 <= j < |tail| ensures tail[j].key != hidden {
      assert tail[j] == es[j + 1];
    }
    HideAbsent(tail, hidden);
    assert Hide(es, hidden) == [] + Hide(tail, hidden);
  }

  /** Dropping element `i > 0` is keeping the head and dropping `i - 1` from
      the tail. */
  lemma DropAtTail<T>(s: seq<T>, i: nat)
    requires 0 < i < |s|
    ensures s[..i] + s[i + 1..] == [s[0]] + (s[1..][..i - 1] + s[1..][i..])
  {
    assert s[..i] == [s[0]] + s[1..][..i - 1];
    assert s[i + 1..] == s[1..][i..];
  }

  /** Hiding the key of entry `i` of an object drops exactly that row and keeps
      the others in `Object.entries` order. */
  lemma {:induction false} HideOne<V>(es: seq<Entry<V>>, hidden: string, i: nat)
    requires DistinctKeys(es) && i < |es| && es[i].key == hidden
    ensures Hide(es, hidden) == es[..i] + es[i + 1..]
  {
    if i == 0 {
      HideHead(es, hidden);
    } else {
      var tail := es[1..];
      DistinctTail(es);
      assert es[0].key != es[i].key;
      HideOne(tail, hidden, i - 1);
      assert Hide(es, hidden) == [es[0]] + Hide(tail, hidden);
      DropAtTail(es, i);
    }
  }

  /** The rows of the profile section: every field but `profileImage`. */
  function ProfileRows(userData: seq<Entry<Option<string>>>): (r: seq<Entry<Option<string>>>)
    ensures forall e :: e in r <==> e in userData && e.key != "profileImage"
  {
    Hide(userData, "profileImage")
  }

  /** The rows of the settings section: the `biometricLogin` row only when the
      device supports biometrics. */
  function SettingRows(settings: seq<Entry<bool>>, supported: bool): (r: seq<Entry<bool>>)
    ensures forall e :: e in r <==> e in settings && (supported || e.key != "biometricLogin")
  {
    if supported then settings else Hide(settings, "biometricLogin")
  }

  /** `LocalAuthentication.AuthenticationType`. */
  datatype AuthenticationType = Fingerprint | FacialRecognition | Iris

  /** The name shown for the device's biometrics: facial recognition wins over
      fingerprint, and anything else is "Biometric". */
  function BiometricTypeName(types: seq<AuthenticationType>): (name: string)
    ensures name == "Face ID" <==> FacialRecognition in types
    ensures name == "Fingerprint" <==> FacialRecognition !in types && Fingerprint in types
    ensures name == "Biometric" <==> FacialRecognition !in types && Fingerprint !in types
  {
    if FacialRecognition in types then "Face ID"
    else if Fingerprint in types then "Fingerprint"
    else "Biometric"
  }

  /** The answers of the three device queries; `None` when the query threw.
      A later query is only asked when the earlier ones let it be. */
  datatype DeviceProbe = DeviceProbe(
    hasHardware: Option<bool>, isEnrolled: Option<bool>, supportedTypes: Option<seq<AuthenticationType>>)

  /** How `authenticateAsync` ended. */
  datatype AuthResult = AuthSucceeded | AuthFailed | AuthThrew

  /** The screen's state. */
  class ProfileScreen {
    var userData: seq<Entry<Option<string>>>
    var settings: seq<Entry<bool>>
    var isEditing: bool
    var isBiometricSupported: bool
    var biometricType: string

    constructor ()
      ensures userData == [Entry("fullName", Some("Joseph Njeri")), Entry("email", Some("joseph@example.com")),
                           Entry("phone", Some("+254 123 456 789")), Entry("idNumber", Some("ID12345678")),
                           Entry("profileImage", None)]
      ensures settings == [Entry("pushNotifications", true), Entry("emailNotifications", true),
                           Entry("smsNotifications", false), Entry("biometricLogin", true), Entry("darkMode", false)]
      ensures !isEditing && !isBiometricSupported && biometricType == ""
    {
      userData := [Entry("fullName", Some("Joseph Njeri")), Entry("email", Some("joseph@example.com")),
                   Entry("phone", Some("+254 123 456 789")), Entry("idNumber", Some("ID12345678")),
                   Entry("profileImage", None)];
      settings := [Entry("pushNotifications", true), Entry("emailNotifications", true),
                   Entry("smsNotifications", false), Entry("biometricLogin", true), Entry("darkMode", false)];
      isEditing := false;
      isBiometricSupported := false;
      biometricType := "";
    }

    /** `checkBiometricSupport`: support is whatever the hardware query says,
        and false when any query throws; the type name is set only once the
        device has hardware, is enrolled and lists its types. */
    method CheckBiometricSupport(probe: DeviceProbe)
      modifies this`isBiometricSupported, this`biometricType
      ensures isBiometricSupported <==>
                && probe.hasHardware == Some(true)
                && probe.isEnrolled.Some?
                && (probe.isEnrolled.value ==> probe.supportedTypes.Some?)
      ensures biometricType ==
                if probe.hasHardware == Some(true) && probe.isEnrolled == Some(true) && probe.supportedTypes.Some?
                then BiometricTypeName(probe.supportedTypes.value)
                else old(biometricType)
    {
      if probe.hasHardware.None? {
        isBiometricSupported := false;
      } else {
        isBiometricSupported := probe.hasHardware.value;
        if probe.hasHardware.value {
          if probe.isEnrolled.None? {
            isBiometricSupported := false;
          } else if probe.isEnrolled.value {
            if probe.supportedTypes.None? {
              isBiometricSupported := false;
            } else {
              biometricType := BiometricTypeName(probe.supportedTypes.value);
            }
          }
        }
      }
    }

    /** `handleBiometricToggle`: refused when unsupported; turning the setting
        on asks the device (`prompted`) and keeps it on only when that
        succeeds; turning it off needs no authentication. */
    method HandleBiometricToggle(newValue: bool, auth: AuthResult) returns (prompted: bool)
      modifies this`settings
      ensures prompted <==> isBiometricSupported && newValue
      ensures !isBiometricSupported ==> settings == old(settings)
      ensures isBiometricSupported ==>
                settings == Assign(old(settings), "biometricLogin", newValue && auth == AuthSucceeded)
      ensures isBiometricSupported ==> Get(settings, "biometricLogin") == Some(newValue && auth == AuthSucceeded)
      ensures forall k :: k != "biometricLogin" ==> Get(settings, k) == Get(old(settings), k)
      ensures "biometricLogin" in Keys(old(settings)) ==> Keys(settings) == Keys(old(settings))
    {
      prompted := isBiometricSupported && newValue;
      if isBiometricSupported {
        SetSetting("biometricLogin", newValue && auth == AuthSucceeded);
      }
    }

    /** `setSettings(prev => ({ ...prev, [key]: value }))`: only that key
        changes, and a key the object holds keeps its place. */
    method SetSetting(key: string, value: bool)
      modifies this`settings
      ensures settings == Assign(old(settings), key, value)
      ensures Get(settings, key) == Some(value)
      ensures forall k :: k != key ==> Get(settings, k) == Get(old(settings), k)
      ensures key in Keys(old(settings)) ==> Keys(settings) == Keys(old(settings))
    {
      AssignKeys(settings, key, value);
      forall k | k != key
        ensures Get(Assign(settings, key, value), k) == Get(settings, k)
      {
        AssignGet(settings, key, value, k);
      }
      AssignGet(settings, key, value, key);
      settings := Assign(settings, key, value);
    }

    /** A settings switch: the biometric one goes through the toggle, every
        other one sets its own key. */
    method SettingSwitched(key: string, newValue: bool, auth: AuthResult)
      modifies this`settings
      ensures key != "biometricLogin" ==> settings == Assign(old(settings), key, newValue)
      ensures key == "biometricLogin" && !isBiometricSupported ==> settings == old(settings)
      ensures key == "biometricLogin" && isBiometricSupported ==>
                settings == Assign(old(settings), key, newValue && auth == AuthSucceeded)
      ensures forall k :: k != key ==> Get(settings, k) == Get(old(settings), k)
      ensures key in Keys(old(settings)) ==> Keys(settings) == Keys(old(settings))
    {
      if key == "biometricLogin" {
        var _ := HandleBiometricToggle(newValue, auth);
      } else {
        SetSetting(key, newValue);
      }
    }

    /** `handleEditPress`: leaving edit mode announces the update; the mode
        flips either way. */
    method HandleEditPress() returns (announced: bool)
      modifies this`isEditing
      ensures announced == old(isEditing)
      ensures isEditing == !old(isEditing)
    {
      announced := isEditing;
      isEditing := !isEditing;
    }

    /** Typing in a profile field: the inputs exist only in edit mode, one per
        shown field. Only that field changes. */
    method EditField(key: string, text: string)
      requires isEditing && key in Keys(userData) && key != "profileImage"
      modifies this`userData
      ensures userData == Assign(old(userData), key, Some(text))
      ensures Get(userData, key) == Some(Some(text))
      ensures forall k :: k != key ==> Get(userData, k) == Get(old(userData), k)
      ensures Keys(userData) == Keys(old(userData))
    {
      AssignKeys(userData, key, Some(text));
      forall k | k != key
        ensures Get(Assign(userData, key, Some(text)), k) == Get(userData, k)
      {
        AssignGet(userData, key, Some(text), k);
      }
      AssignGet(userData, key, Some(text), key);
      userData := Assign(userData, key, Some(text));
    }
  }
}
