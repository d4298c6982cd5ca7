/**
 * The sign-up and sign-in schemas (src/validation/auth.validation.ts) as
 * the messages their parse reports, in the schemas' key order. The e-mail
 * syntax check is a parameter; lengths count UTF-16 code units, as a
 * JavaScript string's `length` does.
 */
module AuthValidation {

  datatype RegisterInput = RegisterInput(name: string, password: string, phone: string, lastName: string, email: string)

  datatype LoginInput = LoginInput(email: string, password: string)

  const MinPasswordLength := 8
  const MinPhoneLength := 10

  /** The UTF-16 code units of one character: two for a character outside the Basic Multilingual Plane. */
  function CodeUnits(c: char): nat
  {
    if c as int >= 0x10000 then 2 else 1
  }

  /** A JavaScript string's `length`: its UTF-16 code units. */
  function Utf16Length(s: string): (n: nat)
    ensures |s| <= n <= 2 * |s|
    ensures n == 0 <==> s == ""
  {
    if s == [] then 0 else CodeUnits(s[0]) + Utf16Length(s[1..])
  }

  /** A string of Basic Multilingual Plane characters has one code unit per character. */
  lemma {:induction false} Utf16LengthBmp(s: string)
    requires forall i :: 0 <= i < |s| ==> s[i] as int < 0x10000
    ensures Utf16Length(s) == |s|
  {
    if s != [] {
      Utf16LengthBmp(s[1..]);
    }
  }

  /** Four emoji are eight code units: a password long enough for both schemas. */
  lemma EmojiPasswordLength()
    ensures |"\U{1F600}\U{1F600}\U{1F600}\U{1F600}"| == 4
    ensures Utf16Length("\U{1F600}\U{1F600}\U{1F600}\U{1F600}") == MinPasswordLength
  {
  }

  /** `user_register_schema`: the messages of every failing check, name first, e-mail last. */
  function RegisterIssues(input: RegisterInput, isEmail: string -> bool): seq<string>
  {
    (if Utf16Length(input.name) < 1 then ["Name is required"] else [])
    + (if Utf16Length(input.password) < MinPasswordLength then ["Password must be at least 8 characters long"] else [])
    + (if Utf16Length(input.phone) < MinPhoneLength then ["Phone number must be at least 10 digits long"] else [])
    + (if Utf16Length(input.lastName) < 1 then ["Last name is required"] else [])
    + (if !isEmail(input.email) then ["Invalid email address"] else [])
  }

  /** `user_login_schema`: the e-mail check, then the password length. */
  function LoginIssues(input: LoginInput, isEmail: string -> bool): seq<string>
  {
    (if !isEmail(input.email) then ["Invalid email address"] else [])
    + (if Utf16Length(input.password) < MinPasswordLength then ["Password must be at least 8 characters long"] else [])
  }

  /** What the sign-up schema demands. */
  predicate ValidRegistration(input: RegisterInput, isEmail: string -> bool)
  {
    && input.name != "" && input.lastName != ""
    && Utf16Length(input.password) >= MinPasswordLength
    && Utf16Length(input.phone) >= MinPhoneLength
    && isEmail(input.email)
  }

  /** What the sign-in schema demands. */
  predicate ValidLogin(input: LoginInput, isEmail: string -> bool)
  {
    isEmail(input.email) && Utf16Length(input.password) >= MinPasswordLength
  }

  /** `errors.map((err) => err.message).join(", ")` */
  function Join(messages: seq<string>): string
  {
    if messages == [] then ""
    else if |messages| == 1 then messages[0]
    else messages[0] + ", " + Join(messages[1..])
  }

  /** Sign-up reports nothing exactly when its demands hold. */
  lemma RegisterIssuesEmpty(input: RegisterInput, isEmail: string -> bool)
    ensures RegisterIssues(input, isEmail) == [] <==> ValidRegistration(input, isEmail)
  {
  }

  /** Sign-in reports nothing exactly when its demands hold. */
  lemma LoginIssuesEmpty(input: LoginInput, isEmail: string -> bool)
    ensures LoginIssues(input, isEmail) == [] <==> ValidLogin(input, isEmail)
  {
  }

  /** Any e-mail and password accepted at sign-up are accepted at sign-in. */
  lemma RegisteredCanLogIn(input: RegisterInput, isEmail: string -> bool)
    requires ValidRegistration(input, isEmail)
    ensures LoginIssues(LoginInput(input.email, input.password), isEmail) == []
  {
  }

  /** Sign-in takes four emoji as a password: the schema counts code units, not characters. */
  lemma EmojiPasswordAccepted(email: string, isEmail: string -> bool)
    ensures "Password must be at least 8 characters long"
      !in LoginIssues(LoginInput(email, "\U{1F600}\U{1F600}\U{1F600}\U{1F600}"), isEmail)
  {
  }

  /** Only the length of the phone number is checked: ten letters pass. */
  lemma PhoneIsOnlyLengthChecked(input: RegisterInput, isEmail: string -> bool)
    requires input.phone == "abcdefghij"
    ensures "Phone number must be at least 10 digits long" !in RegisterIssues(input, isEmail)
  {
  }

  /** The joined message names every issue; none of the schema's messages is empty. */
  lemma {:induction false} JoinedMessageMentionsAll(messages: seq<string>)
    requires forall i :: 0 <= i < |messages| ==> messages[i] != ""
    ensures messages != [] ==> Join(messages) != ""
    ensures forall i :: 0 <= i < |messages| ==> IsInfix(messages[i], Join(messages))
    decreases |messages|
  {
    if |messages| > 1 {
      JoinedMessageMentionsAll(messages[1..]);
      var tail := Join(messages[1..]);
      var whole := messages[0] + ", " + tail;
      assert OccursAt(messages[0], whole, 0) by {
        assert whole[..|messages[0]|] == messages[0];
      }
      forall i | 1 <= i < |messages| ensures IsInfix(messages[i], whole) {
        assert messages[i] == messages[1..][i - 1];
        assert IsInfix(messages[1..][i - 1], tail);
        var k :| OccursAt(messages[i], tail, k);
        var off := |messages[0]| + 2;
        assert whole[off + k..off + k + |messages[i]|] == tail[k..k + |messages[i]|];
        assert OccursAt(messages[i], whole, off + k);
      }
    } else if |messages| == 1 {
      assert OccursAt(messages[0], Join(messages), 0) by {
        assert messages[0][0..|messages[0]|] == messages[0];
      }
    }
  }

  predicate OccursAt(t: string, s: string, k: int)
  {
    0 <= k <= |s| - |t| && s[k..k + |t|] == t
  }

  /** `t` occurs in `s` as a contiguous run. */
  ghost predicate IsInfix(t: string, s: string)
  {
    exists k :: OccursAt(t, s, k)
  }
}
