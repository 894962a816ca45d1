/** The request validators of backend/src/middlewares/validation.ts: the
    e-mail and phone patterns, the registration and login checks that collect
    error messages in a fixed order and normalise the request body on
    acceptance, and the emotion-record check with its HTML sanitiser. */
module Validation {
  import opened Wrappers
  import opened Types
  import opened Collections
  import opened Text

  // ---- The sanitiser: .replace(script blocks).replace(tags).trim() ----

  function IsGt(): char -> bool {
    (c: char) => c == '>'
  }

  /** The first |lit| characters of `s` equal `lit` up to ASCII case; `lit` is in
      lower case, as the `i` flag compares the letters of "script". */
  predicate StartsWithNoCase(s: string, lit: string) {
    |s| >= |lit| && ToLowerAscii(s[..|lit|]) == lit
  }

  lemma LowerCharKeepsPunctuation(c: char, d: char)
    requires !('a' <= d <= 'z') && LowerChar(c) == d
    ensures c == d
  {
  }

  /** How far `.*?<\/script>` reaches from the end of an opening tag: the first
      `</script>` (any case) before any line terminator, which `.` refuses. */
  function CloseTag(b: string): (r: Option<nat>)
    ensures r.Some? ==> r.value + 9 <= |b| && b[r.value + 8] == '>'
    decreases |b|
  {
    if StartsWithNoCase(b, "</script>") then
      LowerCharKeepsPunctuation(b[8], '>');
      Some(0)
    else if b == [] || IsLineTerminator(b[0]) then None
    else match CloseTag(b[1..])
      case None => None
      case Some(q) => Some(q + 1)
  }

  /** The length of the match of `<script[^>]*>.*?<\/script>` at the start of `s`,
      if it matches there: `<script` in any case, then up to the first `>`, then
      the nearest closing tag. */
  function ScriptAt(s: string): (r: Option<nat>)
    ensures r.Some? ==> 2 <= r.value <= |s| && s[0] == '<' && s[r.value - 1] == '>'
  {
    if StartsWithNoCase(s, "<script") then
      LowerCharKeepsPunctuation(s[0], '<');
      match FirstIndex(s[7..], IsGt())
      case None => None
      case Some(g) =>
        match CloseTag(s[8 + g..])
        case None => None
        case Some(q) => assert s[8 + g..][q + 8] == s[8 + g + q + 8]; Some(8 + g + q + 9)
    else None
  }

  /** `.replace(/<script[^>]*>.*?<\/script>/gi, '')`: scanning left to right,
      each script block found is removed and the scan resumes after it. */
  function StripScripts(s: string): (r: string)
    ensures |r| <= |s|
    decreases |s|
  {
    if s == [] then []
    else match ScriptAt(s)
      case Some(n) => StripScripts(s[n..])
      case None => [s[0]] + StripScripts(s[1..])
  }

  /** `.replace(/<[^>]*>/g, '')`: every `<` up to the next `>` removed. */
  function StripTags(s: string): (r: string)
    ensures |r| <= |s|
    ensures forall c | c in r :: c in s
    decreases |s|
  {
    if s == [] then []
    else if s[0] == '<' then
      match FirstIndex(s[1..], IsGt())
      case Some(k) => StripTags(s[k + 2..])
      case None => [s[0]] + StripTags(s[1..])
    else [s[0]] + StripTags(s[1..])
  }

  /** The content sanitiser of validateEmotionRecord (lines 119-122). */
  function Sanitize(s: string): string {
    Trim(StripTags(StripScripts(s)))
  }

  /** No `<` is followed, anywhere later, by a `>`: nothing left that looks like a tag. */
  predicate NoTag(s: string) {
    forall i, j | 0 <= i < j < |s| :: !(s[i] == '<' && s[j] == '>')
  }

  /** Whatever StripTags leaves contains no tag. */
  lemma {:induction false} StripTagsLeavesNoTag(s: string)
    ensures NoTag(StripTags(s))
    decreases |s|
  {
    if s == [] {
    } else if s[0] == '<' {
      match FirstIndex(s[1..], IsGt())
      case Some(k) =>
        StripTagsLeavesNoTag(s[k + 2..]);
      case None =>
        var rest := StripTags(s[1..]);
        StripTagsLeavesNoTag(s[1..]);
        forall j | 0 <= j < |rest| ensures rest[j] != '>' {
          assert rest[j] in s[1..];
        }
        assert StripTags(s) == [s[0]] + rest;
    } else {
      StripTagsLeavesNoTag(s[1..]);
      assert StripTags(s) == [s[0]] + StripTags(s[1..]);
    }
  }

  /** On a string without tags StripTags changes nothing. */
  lemma {:induction false} StripTagsOfNoTag(s: string)
    requires NoTag(s)
    ensures StripTags(s) == s
    decreases |s|
  {
    if s != [] {
      assert NoTag(s[1..]) by {
        forall i, j | 0 <= i < j < |s[1..]| ensures !(s[1..][i] == '<' && s[1..][j] == '>') {
          assert s[1..][i] == s[i + 1] && s[1..][j] == s[j + 1];
        }
      }
      StripTagsOfNoTag(s[1..]);
      if s[0] == '<' {
        assert FirstIndex(s[1..], IsGt()).None? by {
          forall j | 0 <= j < |s[1..]| ensures !IsGt()(s[1..][j]) {
            assert s[1..][j] == s[j + 1];
          }
        }
      }
      assert s == [s[0]] + s[1..];
    }
  }

  /** On a string without tags no script block matches, so StripScripts changes nothing. */
  lemma {:induction false} StripScriptsOfNoTag(s: string)
    requires NoTag(s)
    ensures StripScripts(s) == s
    decreases |s|
  {
    if s != [] {
      if ScriptAt(s).Some? {
        assert false;
      }
      assert NoTag(s[1..]) by {
        forall i, j | 0 <= i < j < |s[1..]| ensures !(s[1..][i] == '<' && s[1..][j] == '>') {
          assert s[1..][i] == s[i + 1] && s[1..][j] == s[j + 1];
        }
      }
      StripScriptsOfNoTag(s[1..]);
      assert s == [s[0]] + s[1..];
    }
  }

  /** A middle piece of a string without tags has none either. */
  lemma NoTagInfix(a: string, m: string, b: string)
    requires NoTag(a + m + b)
    ensures NoTag(m)
  {
    var s := a + m + b;
    forall i, j | 0 <= i < j < |m| ensures !(m[i] == '<' && m[j] == '>') {
      assert m[i] == s[|a| + i] && m[j] == s[|a| + j];
    }
  }

  /** The sanitised content contains no tag and starts and ends with no white space. */
  lemma SanitizeLeavesNoTag(s: string)
    ensures NoTag(Sanitize(s)) && Trimmed(Sanitize(s))
  {
    var t := StripTags(StripScripts(s));
    StripTagsLeavesNoTag(StripScripts(s));
    var a, b := TrimIsMiddle(t);
    NoTagInfix(a, Trim(t), b);
  }

  /** Sanitising sanitised content changes nothing. */
  lemma SanitizeIdempotent(s: string)
    ensures Sanitize(Sanitize(s)) == Sanitize(s)
  {
    var y := Sanitize(s);
    SanitizeLeavesNoTag(s);
    StripScriptsOfNoTag(y);
    StripTagsOfNoTag(y);
    TrimOfTrimmed(y);
  }

  /** A script block goes with its contents, where StripTags alone would keep
      the script's text. */
  lemma ScriptBlockExample()
    ensures Sanitize("<script>x</script>") == ""
    ensures StripTags("<script>x</script>") == "x"
  {
    var s := "<script>x</script>";
    ScriptBlockMatches();
    assert s[18..] == [];
    assert StripScripts(s) == [];
    assert Trim([]) == [];
    TagsAloneKeepText();
  }

  /** The whole of "<script>x</script>" is one match of the script pattern. */
  lemma ScriptBlockMatches()
    ensures ScriptAt("<script>x</script>") == Some(18)
  {
    var s := "<script>x</script>";
    assert StartsWithNoCase(s, "<script");
    assert s[7..][0] == '>';
    assert FirstIndex(s[7..], IsGt()) == Some(0);
    CloseTagExample(s[8..]);
  }

  lemma CloseTagExample(b: string)
    requires b == "x</script>"
    ensures CloseTag(b) == Some(1)
  {
    assert ToLowerAscii(b[..9])[0] == 'x';
    assert !StartsWithNoCase(b, "</script>");
    assert b[1..] == "</script>";
    assert StartsWithNoCase(b[1..], "</script>");
  }

  /** Tag stripping alone drops the two tags and keeps the text between them. */
  lemma TagsAloneKeepText()
    ensures StripTags("<script>x</script>") == "x"
  {
    OpeningTagStripped("<script>x</script>");
    TextBeforeClosingTagKept("x</script>");
  }

  lemma OpeningTagStripped(s: string)
    requires s == "<script>x</script>"
    ensures StripTags(s) == StripTags("x</script>")
  {
    assert s[0] == '<' && s[7] == '>';
    assert forall i | 1 <= i < 7 :: s[i] != '>';
    TagRemoved(s, 6);
    assert s[8..] == "x</script>";
  }

  /** A `<` whose nearest `>` is at k + 1 is removed together with everything
      up to that `>`. */
  lemma TagRemoved(s: string, k: nat)
    requires k + 2 <= |s| && s[0] == '<' && s[k + 1] == '>'
    requires forall i | 1 <= i < k + 1 :: s[i] != '>'
    ensures StripTags(s) == StripTags(s[k + 2..])
  {
    var t := s[1..];
    assert IsGt()(t[k]);
    forall j | 0 <= j < k ensures !IsGt()(t[j]) {
      assert t[j] == s[j + 1];
    }
    assert FirstIndex(t, IsGt()) == Some(k);
  }

  lemma TextBeforeClosingTagKept(v: string)
    requires v == "x</script>"
    ensures StripTags(v) == "x"
  {
    assert v[0] == 'x' && v[1..] == "</script>";
    ClosingTagStripped(v[1..]);
  }

  lemma ClosingTagStripped(w: string)
    requires w == "</script>"
    ensures StripTags(w) == []
  {
    assert w[1..][7] == '>';
    assert FirstIndex(w[1..], IsGt()) == Some(7);
    assert w[9..] == [];
  }

  // ---- The e-mail and phone patterns ----

  /** `[^\s@]`. */
  predicate EmailChar(c: char) {
    !IsWhitespace(c) && c != '@'
  }

  /** s[lo..hi] is made of `[^\s@]` characters. */
  predicate EmailRun(s: string, lo: int, hi: int) {
    forall k | lo <= k < hi && 0 <= k < |s| :: EmailChar(s[k])
  }

  /** `/^[^\s@]+@[^\s@]+\.[^\s@]+$/.test(s)` (line 5): a non-empty local part, `@`,
      a non-empty run, a dot, and a non-empty run, none of them holding white
      space or another `@`. */
  predicate MatchesEmailPattern(s: string) {
    exists i, j | 0 < i && i + 1 < j && j + 1 < |s| ::
      s[i] == '@' && s[j] == '.' && EmailRun(s, 0, i) && EmailRun(s, i + 1, j) && EmailRun(s, j + 1, |s|)
  }

  function IsAt(): char -> bool {
    (c: char) => c == '@'
  }

  function IsDot(): char -> bool {
    (c: char) => c == '.'
  }

  /** A direct check of the same pattern: no white space, exactly one `@`, not the
      first character, and a dot strictly inside the part after it. */
  function IsEmail(s: string): bool {
    match FirstIndex(s, IsAt())
    case None => false
    case Some(i) =>
      var domain := s[i + 1..];
      && 0 < i && NoWhitespace(s)
      && FirstIndex(domain, IsAt()).None?
      && |domain| >= 3 && FirstIndex(domain[1..|domain| - 1], IsDot()).Some?
  }

  /** The direct check accepts exactly the strings the pattern matches. */
  lemma EmailCheckIsPattern(s: string)
    ensures IsEmail(s) <==> MatchesEmailPattern(s)
  {
    if IsEmail(s) {
      EmailFromCheck(s);
    }
    if MatchesEmailPattern(s) {
      EmailToCheck(s);
    }
  }

  lemma EmailFromCheck(s: string)
    requires IsEmail(s)
    ensures MatchesEmailPattern(s)
  {
    var i := FirstIndex(s, IsAt()).value;
    var domain := s[i + 1..];
    var inner := domain[1..|domain| - 1];
    var m := FirstIndex(inner, IsDot()).value;
    var j := i + 2 + m;
    assert s[j] == inner[m];
    forall k | 0 <= k < |s| && k != i ensures EmailChar(s[k]) {
      if k > i {
        assert s[k] == domain[k - i - 1];
        assert !IsAt()(domain[k - i - 1]);
      }
    }
    assert s[i] == '@' && s[j] == '.' && EmailRun(s, 0, i) && EmailRun(s, i + 1, j) && EmailRun(s, j + 1, |s|);
  }

  lemma EmailToCheck(s: string)
    requires MatchesEmailPattern(s)
    ensures IsEmail(s)
  {
    var i, j :| 0 < i && i + 1 < j && j + 1 < |s|
      && s[i] == '@' && s[j] == '.' && EmailRun(s, 0, i) && EmailRun(s, i + 1, j) && EmailRun(s, j + 1, |s|);
    EmailAt(s, i, j);
  }

  /** The direct check accepts a string the pattern matches with its `@` at i and
      its last-part dot at j. */
  lemma EmailAt(s: string, i: nat, j: nat)
    requires 0 < i && i + 1 < j && j + 1 < |s| && s[i] == '@' && s[j] == '.'
    requires EmailRun(s, 0, i) && EmailRun(s, i + 1, j) && EmailRun(s, j + 1, |s|)
    ensures IsEmail(s)
  {
    AtIsFirst(s, i);
    PatternHasNoWhitespace(s, i, j);
    DomainHasNoAt(s, i, j);
    DotInDomain(s, i, j);
  }

  lemma DotInDomain(s: string, i: nat, j: nat)
    requires i + 1 < j && j + 1 < |s| && s[j] == '.'
    ensures |s[i + 1..]| >= 3 && FirstIndex(s[i + 1..][1..|s| - i - 2], IsDot()).Some?
  {
    var inner := s[i + 1..][1..|s| - i - 2];
    assert inner[j - i - 2] == s[j];
    assert IsDot()(inner[j - i - 2]);
  }

  lemma AtIsFirst(s: string, i: nat)
    requires i < |s| && s[i] == '@' && EmailRun(s, 0, i)
    ensures FirstIndex(s, IsAt()) == Some(i)
  {
    assert IsAt()(s[i]);
    forall k | 0 <= k < i ensures !IsAt()(s[k]) {
      assert EmailChar(s[k]);
    }
  }

  lemma PatternHasNoWhitespace(s: string, i: nat, j: nat)
    requires i < j < |s| && s[i] == '@' && s[j] == '.'
    requires EmailRun(s, 0, i) && EmailRun(s, i + 1, j) && EmailRun(s, j + 1, |s|)
    ensures NoWhitespace(s)
  {
    forall k | 0 <= k < |s| ensures !IsWhitespace(s[k]) {
      if k != i && k != j {
        assert EmailChar(s[k]);
      }
    }
  }

  lemma DomainHasNoAt(s: string, i: nat, j: nat)
    requires i < j < |s| && s[j] == '.' && EmailRun(s, i + 1, j) && EmailRun(s, j + 1, |s|)
    ensures FirstIndex(s[i + 1..], IsAt()).None?
  {
    var domain := s[i + 1..];
    forall k | 0 <= k < |domain| ensures !IsAt()(domain[k]) {
      assert domain[k] == s[i + 1 + k];
      if i + 1 + k != j {
        assert EmailChar(s[i + 1 + k]);
      }
    }
  }

  /** Lower-casing keeps a string's match with the e-mail pattern. */
  lemma EmailPatternIgnoresCase(s: string)
    ensures MatchesEmailPattern(ToLowerAscii(s)) <==> MatchesEmailPattern(s)
  {
    var t := ToLowerAscii(s);
    assert forall k | 0 <= k < |s| :: EmailChar(t[k]) == EmailChar(s[k]);
    assert forall k | 0 <= k < |s| :: (t[k] == '@') == (s[k] == '@') && (t[k] == '.') == (s[k] == '.');
    if MatchesEmailPattern(s) {
      var i, j :| 0 < i && i + 1 < j && j + 1 < |s|
        && s[i] == '@' && s[j] == '.' && EmailRun(s, 0, i) && EmailRun(s, i + 1, j) && EmailRun(s, j + 1, |s|);
      PatternTransfers(s, t, i, j);
    }
    if MatchesEmailPattern(t) {
      var i, j :| 0 < i && i + 1 < j && j + 1 < |t|
        && t[i] == '@' && t[j] == '.' && EmailRun(t, 0, i) && EmailRun(t, i + 1, j) && EmailRun(t, j + 1, |t|);
      PatternTransfers(t, s, i, j);
    }
  }

  /** A match with its `@` at i and its dot at j carries over to a string of the
      same length that agrees on `@`, `.` and the run characters. */
  lemma PatternTransfers(s: string, t: string, i: nat, j: nat)
    requires |s| == |t|
    requires forall k | 0 <= k < |s| :: EmailChar(t[k]) == EmailChar(s[k])
    requires forall k | 0 <= k < |s| :: (t[k] == '@') == (s[k] == '@') && (t[k] == '.') == (s[k] == '.')
    requires 0 < i && i + 1 < j && j + 1 < |s| && s[i] == '@' && s[j] == '.'
    requires EmailRun(s, 0, i) && EmailRun(s, i + 1, j) && EmailRun(s, j + 1, |s|)
    ensures MatchesEmailPattern(t)
  {
    assert t[i] == '@' && t[j] == '.';
    assert EmailRun(t, 0, i) && EmailRun(t, i + 1, j) && EmailRun(t, j + 1, |t|);
  }

  /** A string matching the e-mail pattern holds no white space, so trim() leaves it alone. */
  lemma EmailIsTrimmed(s: string)
    requires MatchesEmailPattern(s)
    ensures Trim(s) == s
  {
    var i, j :| 0 < i && i + 1 < j && j + 1 < |s|
      && s[i] == '@' && s[j] == '.' && EmailRun(s, 0, i) && EmailRun(s, i + 1, j) && EmailRun(s, j + 1, |s|);
    assert EmailChar(s[0]) && EmailChar(s[|s| - 1]);
    TrimOfTrimmed(s);
  }

  /** The e-mail a successful registration stores, trimmed and lower-cased, still
      passes the login check. */
  lemma NormalizedEmailStillValid(s: string)
    requires IsEmail(s)
    ensures IsEmail(ToLowerAscii(Trim(s)))
  {
    EmailCheckIsPattern(s);
    EmailIsTrimmed(s);
    EmailPatternIgnoresCase(s);
    EmailCheckIsPattern(ToLowerAscii(s));
  }

  /** `/^1[3-9]\d{9}$/.test(s)` (line 11): eleven ASCII digits, a 1 and then 3 to 9. */
  predicate IsPhone(s: string) {
    |s| == 11 && s[0] == '1' && '3' <= s[1] <= '9' && AllDigits(s[2..])
  }

  /** A valid phone number holds no white space, so trim() leaves it alone, and
      it is never the empty string JavaScript treats as absent. */
  lemma PhoneIsTrimmed(s: string)
    requires IsPhone(s)
    ensures Trim(s) == s && s != ""
  {
    assert IsDigit(s[2..][8]) && s[2..][8] == s[|s| - 1];
    TrimOfTrimmed(s);
  }

  // ---- The validators ----

  /** The messages the validators collect. */
  datatype ValidationError =
    | NameTooShort
    | InvalidEmail
    | PasswordTooShort
    | InvalidRole
    | InvalidPhone
    | AgeOutOfRange
    | MissingType

  function ErrorMessage(e: ValidationError): string {
    match e
    case NameTooShort => "姓名至少需要2个字符"
    case InvalidEmail => "请输入有效的邮箱地址"
    case PasswordTooShort => "密码至少需要6个字符"
    case InvalidRole => "无效的用户角色"
    case InvalidPhone => "请输入有效的手机号码"
    case AgeOutOfRange => "年龄必须在10-100之间"
    case MissingType => "情绪识别类型不能为空"
  }

  /** The order in which the checks push their messages. */
  function ErrorRank(e: ValidationError): int {
    match e
    case NameTooShort => 0
    case InvalidEmail => 1
    case PasswordTooShort => 2
    case InvalidRole => 3
    case InvalidPhone => 4
    case AgeOutOfRange => 5
    case MissingType => 6
  }

  /** The field checks (lines 36-58): `!x || …` fails an absent or empty field. */
  predicate NameOk(name: Option<string>) {
    Present(name) && |Trim(name.value)| >= 2
  }

  predicate EmailOk(email: Option<string>) {
    Present(email) && IsEmail(email.value)
  }

  predicate PasswordOk(password: Option<string>) {
    Present(password) && |password.value| >= 6
  }

  predicate RoleOk(role: Option<string>) {
    Present(role) && ParseRole(role.value).Some?
  }

  /** Optional: only a present, non-empty phone is checked. */
  predicate PhoneOk(phone: Option<string>) {
    Present(phone) ==> IsPhone(phone.value)
  }

  /** Optional: only a defined age is checked, against 10..100 inclusive. */
  predicate AgeOk(age: Option<int>) {
    age.Some? ==> 10 <= age.value <= 100
  }

  /** The fields of a request body the validators read and rewrite; `kind` is the
      `type` field of an emotion record. */
  datatype BodyFields = BodyFields(name: Option<string>, email: Option<string>, password: Option<string>,
                                   role: Option<string>, phone: Option<string>, age: Option<int>,
                                   studentId: Option<string>, teacherId: Option<string>,
                                   kind: Option<string>, content: Option<string>)

  /** `req.body`, the object the middleware rewrites property by property. */
  class Body {
    var fields: BodyFields

    constructor (fields: BodyFields)
      ensures this.fields == fields
    {
      this.fields := fields;
    }
  }

  /** Which of the six registration checks fail, field by field. */
  datatype FailedFields = FailedFields(name: bool, email: bool, password: bool, role: bool, phone: bool, age: bool)

  function RegistrationFailures(name: Option<string>, email: Option<string>, password: Option<string>,
                                role: Option<string>, phone: Option<string>, age: Option<int>): FailedFields {
    FailedFields(!NameOk(name), !EmailOk(email), !PasswordOk(password), !RoleOk(role), !PhoneOk(phone), !AgeOk(age))
  }

  /** Whether a message belongs to a failed check. */
  predicate Fails(e: ValidationError, f: FailedFields) {
    match e
    case NameTooShort => f.name
    case InvalidEmail => f.email
    case PasswordTooShort => f.password
    case InvalidRole => f.role
    case InvalidPhone => f.phone
    case AgeOutOfRange => f.age
    case MissingType => false
  }

  /** Which registration messages belong in the list. */
  predicate RegistrationFails(e: ValidationError, name: Option<string>, email: Option<string>,
                              password: Option<string>, role: Option<string>, phone: Option<string>,
                              age: Option<int>) {
    Fails(e, RegistrationFailures(name, email, password, role, phone, age))
  }

  /** The list the registration checks build: one message per failed check, in
      the order the checks run. */
  function RegistrationList(f: FailedFields): seq<ValidationError> {
    var s := PushIf(PushIf(PushIf([], f.name, NameTooShort), f.email, InvalidEmail), f.password, PasswordTooShort);
    PushIf(PushIf(PushIf(s, f.role, InvalidRole), f.phone, InvalidPhone), f.age, AgeOutOfRange)
  }

  /** The list holds exactly the failed checks' messages, each once and in rank
      order; by RankedUnique no other list does. */
  lemma RegistrationListIsTheFailures(f: FailedFields)
    ensures forall e: ValidationError :: e in RegistrationList(f) <==> Fails(e, f)
    ensures RankedBy(RegistrationList(f), ErrorRank)
  {
    RegistrationListRanked(f);
    forall e: ValidationError ensures e in RegistrationList(f) <==> Fails(e, f) {
      var s1 := PushIf([], f.name, NameTooShort);
      InPushIf([], f.name, NameTooShort, e);
      var s2 := PushIf(s1, f.email, InvalidEmail);
      InPushIf(s1, f.email, InvalidEmail, e);
      var s3 := PushIf(s2, f.password, PasswordTooShort);
      InPushIf(s2, f.password, PasswordTooShort, e);
      var s4 := PushIf(s3, f.role, InvalidRole);
      InPushIf(s3, f.role, InvalidRole, e);
      var s5 := PushIf(s4, f.phone, InvalidPhone);
      InPushIf(s4, f.phone, InvalidPhone, e);
      InPushIf(s5, f.age, AgeOutOfRange, e);
    }
  }

  lemma RegistrationListRanked(f: FailedFields)
    ensures RankedBy(RegistrationList(f), ErrorRank)
  {
    var s1 := PushIf([], f.name, NameTooShort);
    RankedPush([], f.name, NameTooShort, ErrorRank);
    var s2 := PushIf(s1, f.email, InvalidEmail);
    RankedPush(s1, f.email, InvalidEmail, ErrorRank);
    var s3 := PushIf(s2, f.password, PasswordTooShort);
    RankedPush(s2, f.password, PasswordTooShort, ErrorRank);
    var s4 := PushIf(s3, f.role, InvalidRole);
    RankedPush(s3, f.role, InvalidRole, ErrorRank);
    var s5 := PushIf(s4, f.phone, InvalidPhone);
    RankedPush(s4, f.phone, InvalidPhone, ErrorRank);
    RankedPush(s5, f.age, AgeOutOfRange, ErrorRank);
  }

  /** The checks of validateUserRegistration (lines 33-59), each pushing its message. */
  method RegistrationErrors(name: Option<string>, email: Option<string>, password: Option<string>,
                            role: Option<string>, phone: Option<string>, age: Option<int>)
    returns (errors: seq<ValidationError>)
    ensures errors == RegistrationList(RegistrationFailures(name, email, password, role, phone, age))
  {
    errors := [];
    errors := Check(errors, !NameOk(name), NameTooShort);
    errors := Check(errors, !EmailOk(email), InvalidEmail);
    errors := Check(errors, !PasswordOk(password), PasswordTooShort);
    errors := Check(errors, !RoleOk(role), InvalidRole);
    errors := Check(errors, !PhoneOk(phone), InvalidPhone);
    errors := Check(errors, !AgeOk(age), AgeOutOfRange);
  }

  /** One check: `if (failed) errors.push(message)`. */
  method Check(errors: seq<ValidationError>, failed: bool, e: ValidationError) returns (errors': seq<ValidationError>)
    ensures errors' == PushIf(errors, failed, e)
  {
    errors' := errors;
    if failed {
      errors' := errors' + [e];
    }
  }

  /** `if (x) x = x.trim()`. */
  function TrimIfPresent(s: Option<string>): (r: Option<string>)
    ensures Present(s) ==> r == Some(Trim(s.value))
    ensures !Present(s) ==> r == s
  {
    if Present(s) then Some(Trim(s.value)) else s
  }

  /** An empty list means every check passed. */
  lemma EmptyListMeansPassed(f: FailedFields)
    ensures RegistrationList(f) == [] <==> !f.name && !f.email && !f.password && !f.role && !f.phone && !f.age
  {
  }

  /** Lines 70-74: name and e-mail trimmed, the e-mail lower-cased, and the
      student id, teacher id and phone trimmed when present. */
  function NormalizedRegistration(f: BodyFields): BodyFields {
    var email := if Present(f.email) then Some(ToLowerAscii(Trim(f.email.value))) else f.email;
    f.(name := TrimIfPresent(f.name), email := email, studentId := TrimIfPresent(f.studentId),
       teacherId := TrimIfPresent(f.teacherId), phone := TrimIfPresent(f.phone))
  }

  /** validateUserRegistration: the error list, and on acceptance (an empty list)
      the body normalised as lines 70-74 do; a rejected body is left as it was.
      RegistrationListIsTheFailures says what the list holds. */
  method ValidateUserRegistration(body: Body) returns (errors: seq<ValidationError>)
    modifies body
    ensures var f := old(body.fields);
      errors == RegistrationList(RegistrationFailures(f.name, f.email, f.password, f.role, f.phone, f.age))
    ensures errors != [] ==> body.fields == old(body.fields)
    ensures errors == [] ==>
      var f := old(body.fields);
      NameOk(f.name) && EmailOk(f.email) && PhoneOk(f.phone) && body.fields == NormalizedRegistration(f)
  {
    var f := body.fields;
    errors := RegistrationErrors(f.name, f.email, f.password, f.role, f.phone, f.age);
    if errors != [] {
      return;
    }
    EmptyListMeansPassed(RegistrationFailures(f.name, f.email, f.password, f.role, f.phone, f.age));
    body.fields := body.fields.(name := Some(Trim(f.name.value)));
    body.fields := body.fields.(email := Some(ToLowerAscii(Trim(f.email.value))));
    body.fields := body.fields.(studentId := TrimIfPresent(body.fields.studentId));
    body.fields := body.fields.(teacherId := TrimIfPresent(body.fields.teacherId));
    body.fields := body.fields.(phone := TrimIfPresent(body.fields.phone));
  }

  /** Normalising an accepted body a second time changes nothing. */
  lemma NormalizedRegistrationIdempotent(f: BodyFields)
    ensures NormalizedRegistration(NormalizedRegistration(f)) == NormalizedRegistration(f)
  {
    forall x: Option<string> ensures TrimIfPresent(TrimIfPresent(x)) == TrimIfPresent(x) {
      if Present(x) {
        TrimIdempotent(x.value);
      }
    }
    if Present(f.email) {
      var t := Trim(f.email.value);
      LowerOfTrimmedIsTrimmed(t);
      TrimOfTrimmed(ToLowerAscii(t));
      ToLowerAsciiIdempotent(t);
    }
  }

  /** Lower-casing keeps a trimmed string trimmed. */
  lemma LowerOfTrimmedIsTrimmed(t: string)
    requires Trimmed(t)
    ensures Trimmed(ToLowerAscii(t))
  {
    ToLowerKeepsWhitespace(t);
  }

  /** What an accepted registration leaves behind passes the same checks again,
      and trimming changed neither the e-mail nor the phone. */
  lemma AcceptedRegistrationRevalidates(f: BodyFields)
    requires RegistrationList(RegistrationFailures(f.name, f.email, f.password, f.role, f.phone, f.age)) == []
    ensures var g := NormalizedRegistration(f);
      RegistrationList(RegistrationFailures(g.name, g.email, g.password, g.role, g.phone, g.age)) == []
    ensures Trim(f.email.value) == f.email.value && NormalizedRegistration(f).phone == f.phone
  {
    EmptyListMeansPassed(RegistrationFailures(f.name, f.email, f.password, f.role, f.phone, f.age));
    var g := NormalizedRegistration(f);
    TrimmedNameStillValid(f.name);
    StoredEmailStillValid(f.email);
    TrimmedPhoneUnchanged(f.phone);
    EmptyListMeansPassed(RegistrationFailures(g.name, g.email, g.password, g.role, g.phone, g.age));
  }

  lemma TrimmedNameStillValid(name: Option<string>)
    requires NameOk(name)
    ensures NameOk(TrimIfPresent(name))
  {
    var t := Trim(name.value);
    TrimIdempotent(name.value);
    assert |t| >= 2;
    assert Present(Some(t));
    assert TrimIfPresent(name) == Some(t);
  }

  lemma StoredEmailStillValid(email: Option<string>)
    requires EmailOk(email)
    ensures EmailOk(Some(ToLowerAscii(Trim(email.value))))
    ensures Trim(email.value) == email.value
  {
    NormalizedEmailStillValid(email.value);
    EmailCheckIsPattern(email.value);
    EmailIsTrimmed(email.value);
  }

  lemma TrimmedPhoneUnchanged(phone: Option<string>)
    requires PhoneOk(phone)
    ensures TrimIfPresent(phone) == phone
  {
    if Present(phone) {
      PhoneIsTrimmed(phone.value);
    }
  }

  /** The login form runs only the e-mail and password checks. */
  function LoginFailures(email: Option<string>, password: Option<string>): FailedFields {
    FailedFields(false, !EmailOk(email), !PasswordOk(password), false, false, false)
  }

  /** Which login messages belong in the list. */
  predicate LoginFails(e: ValidationError, email: Option<string>, password: Option<string>) {
    Fails(e, LoginFailures(email, password))
  }

  /** The checks of validateUserLogin (lines 83-91). */
  method LoginErrors(email: Option<string>, password: Option<string>) returns (errors: seq<ValidationError>)
    ensures errors == RegistrationList(LoginFailures(email, password))
  {
    errors := [];
    errors := Check(errors, !EmailOk(email), InvalidEmail);
    errors := Check(errors, !PasswordOk(password), PasswordTooShort);
  }

  /** The login checks are the e-mail and password checks of registration, and
      no other message is ever produced by login. */
  lemma LoginChecksAreRegistrationChecks(e: ValidationError, name: Option<string>, email: Option<string>,
                                         password: Option<string>, role: Option<string>, phone: Option<string>,
                                         age: Option<int>)
    ensures e == InvalidEmail || e == PasswordTooShort ==>
      (LoginFails(e, email, password) <==> RegistrationFails(e, name, email, password, role, phone, age))
    ensures e != InvalidEmail && e != PasswordTooShort ==> !LoginFails(e, email, password)
  {
  }

  /** validateUserLogin: on acceptance the e-mail is trimmed and lower-cased (line 101). */
  method ValidateUserLogin(body: Body) returns (errors: seq<ValidationError>)
    modifies body
    ensures errors == RegistrationList(LoginFailures(old(body.fields).email, old(body.fields).password))
    ensures errors != [] ==> body.fields == old(body.fields)
    ensures errors == [] ==>
      var f := old(body.fields);
      EmailOk(f.email) && body.fields == f.(email := Some(ToLowerAscii(Trim(f.email.value))))
  {
    var f := body.fields;
    errors := LoginErrors(f.email, f.password);
    if errors != [] {
      return;
    }
    EmptyListMeansPassed(LoginFailures(f.email, f.password));
    body.fields := body.fields.(email := Some(ToLowerAscii(Trim(f.email.value))));
  }

  /** What validateEmotionRecord leaves in the body: present content sanitised. */
  function SanitizedRecord(f: BodyFields): BodyFields {
    if Present(f.content) then f.(content := Some(Sanitize(f.content.value))) else f
  }

  /** validateEmotionRecord (lines 108-133): a missing type is the one error, and
      present content is sanitised before the errors are looked at, so a rejected
      request has its content rewritten too. */
  method ValidateEmotionRecord(body: Body) returns (errors: seq<ValidationError>)
    modifies body
    ensures errors == if Present(old(body.fields).kind) then [] else [MissingType]
    ensures body.fields == SanitizedRecord(old(body.fields))
  {
    errors := [];
    if !Present(body.fields.kind) {
      errors := errors + [MissingType];
    }
    if Present(body.fields.content) {
      body.fields := body.fields.(content := Some(Sanitize(body.fields.content.value)));
    }
  }

  /** The stored content carries no tag and no surrounding white space, and
      validating the rewritten body again leaves it as it is. */
  lemma SanitizedRecordIsClean(f: BodyFields)
    ensures Present(SanitizedRecord(f).content) ==>
      NoTag(SanitizedRecord(f).content.value) && Trimmed(SanitizedRecord(f).content.value)
    ensures SanitizedRecord(SanitizedRecord(f)) == SanitizedRecord(f)
  {
    if Present(f.content) {
      SanitizeLeavesNoTag(f.content.value);
      SanitizeIdempotent(f.content.value);
    }
  }
}
