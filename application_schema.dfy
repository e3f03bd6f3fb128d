/** The front-end `applicationSchema`: zod string checks on the three fields of the
    application form. zod runs every check of a field and reports one issue per failed
    check, in the order the checks are written; the form is accepted when no field has an
    issue. Lengths are JavaScript's `length`, counted in UTF-16 code units. The email
    format test of `.email()` is a parameter. */
module ApplicationSchema {

  /** The form as submitted. */
  datatype ApplicationForm = ApplicationForm(applicantName: string, applicantEmail: string, permitType: string)

  datatype Issue = Issue(path: string, message: string)

  /** `string.length`: characters outside the Basic Multilingual Plane take two code units. */
  function Utf16Length(s: string): (n: nat)
    ensures |s| <= n <= 2 * |s|
    ensures (forall i :: 0 <= i < |s| ==> s[i] as int <= 0xFFFF) ==> n == |s|
  {
    if s == [] then 0
    else (if s[0] as int > 0xFFFF then 2 else 1) + Utf16Length(s[1..])
  }

  /** The characters of the regular expression class `\s` (no `u` flag): the JavaScript
      white space and line terminators. */
  predicate IsJsWhitespace(c: char)
  {
    c == '\t' || c == '\n' || c == '\U{0B}' || c == '\U{0C}' || c == '\r' || c == ' '
    || c == '\U{A0}' || c == '\U{1680}' || ('\U{2000}' <= c <= '\U{200A}')
    || c == '\U{2028}' || c == '\U{2029}' || c == '\U{202F}' || c == '\U{205F}'
    || c == '\U{3000}' || c == '\U{FEFF}'
  }

  predicate IsAsciiLetter(c: char)
  {
    ('a' <= c <= 'z') || ('A' <= c <= 'Z')
  }

  /** `/^[a-zA-Z\s]+$/`: one or more characters, each a letter or white space. */
  predicate MatchesNamePattern(s: string)
  {
    |s| > 0 && forall i :: 0 <= i < |s| ==> IsAsciiLetter(s[i]) || IsJsWhitespace(s[i])
  }

  /** The rule the name field states: 2 to 100 characters, letters and white space only. */
  predicate NameValid(s: string)
  {
    2 <= Utf16Length(s) <= 100 && forall i :: 0 <= i < |s| ==> IsAsciiLetter(s[i]) || IsJsWhitespace(s[i])
  }

  /** The rule the email field states: non-empty and an email address. */
  predicate EmailValid(s: string, isEmail: string -> bool)
  {
    s != "" && isEmail(s)
  }

  /** The rule the permit type field states: 3 to 100 characters of any kind. */
  predicate PermitTypeValid(s: string)
  {
    3 <= Utf16Length(s) <= 100
  }

  predicate FormValid(form: ApplicationForm, isEmail: string -> bool)
  {
    NameValid(form.applicantName) && EmailValid(form.applicantEmail, isEmail) && PermitTypeValid(form.permitType)
  }

  /** The messages of the failed checks on `applicant_name`. */
  function NameIssues(s: string): (r: seq<string>)
    ensures r == [] <==> NameValid(s)
    ensures "Applicant name is required" in r <==> s == ""
    ensures "Name must be at least 2 characters" in r <==> Utf16Length(s) < 2
    ensures "Name must not exceed 100 characters" in r <==> Utf16Length(s) > 100
    ensures "Name can only contain letters and spaces" in r <==> !MatchesNamePattern(s)
  {
    var n := Utf16Length(s);
    (if n < 1 then ["Applicant name is required"] else [])
    + (if n < 2 then ["Name must be at least 2 characters"] else [])
    + (if n > 100 then ["Name must not exceed 100 characters"] else [])
    + (if !MatchesNamePattern(s) then ["Name can only contain letters and spaces"] else [])
  }

  /** The messages of the failed checks on `applicant_email`; an empty string fails both. */
  function EmailIssues(s: string, isEmail: string -> bool): (r: seq<string>)
    ensures r == [] <==> EmailValid(s, isEmail)
    ensures "Email is required" in r <==> s == ""
    ensures "Please enter a valid email address" in r <==> !isEmail(s)
  {
    (if Utf16Length(s) < 1 then ["Email is required"] else [])
    + (if !isEmail(s) then ["Please enter a valid email address"] else [])
  }

  /** The messages of the failed checks on `permit_type`. */
  function PermitTypeIssues(s: string): (r: seq<string>)
    ensures r == [] <==> PermitTypeValid(s)
    ensures "Permit type is required" in r <==> s == ""
    ensures "Permit type must be at least 3 characters" in r <==> Utf16Length(s) < 3
    ensures "Permit type must not exceed 100 characters" in r <==> Utf16Length(s) > 100
  {
    var n := Utf16Length(s);
    (if n < 1 then ["Permit type is required"] else [])
    + (if n < 3 then ["Permit type must be at least 3 characters"] else [])
    + (if n > 100 then ["Permit type must not exceed 100 characters"] else [])
  }

  /** The messages of one field as issues at that field's path, in order. */
  function Tag(path: string, messages: seq<string>): (r: seq<Issue>)
    ensures |r| == |messages|
    ensures forall i :: 0 <= i < |r| ==> r[i] == Issue(path, messages[i])
  {
    if messages == [] then [] else [Issue(path, messages[0])] + Tag(path, messages[1..])
  }

  const NamePath := "applicant_name"
  const EmailPath := "applicant_email"
  const PermitTypePath := "permit_type"

  /** `applicationSchema.safeParse(form)`: every issue of every field, each with its path. */
  function Issues(form: ApplicationForm, isEmail: string -> bool): (r: seq<Issue>)
    ensures r == [] <==> FormValid(form, isEmail)
    ensures forall m :: Issue(NamePath, m) in r <==> m in NameIssues(form.applicantName)
    ensures forall m :: Issue(EmailPath, m) in r <==> m in EmailIssues(form.applicantEmail, isEmail)
    ensures forall m :: Issue(PermitTypePath, m) in r <==> m in PermitTypeIssues(form.permitType)
    ensures forall x :: x in r ==> x.path == NamePath || x.path == EmailPath || x.path == PermitTypePath
  {
    var name := NameIssues(form.applicantName);
    var email := EmailIssues(form.applicantEmail, isEmail);
    var permitType := PermitTypeIssues(form.permitType);
    assert NamePath[10] != EmailPath[10] && NamePath[0] != PermitTypePath[0] && EmailPath[0] != PermitTypePath[0];
    FieldsKeepTheirIssues(NamePath, name, EmailPath, email, PermitTypePath, permitType);
    Tag(NamePath, name) + Tag(EmailPath, email) + Tag(PermitTypePath, permitType)
  }

  /** Under three different paths, each field's issues are found under its own path only. */
  lemma FieldsKeepTheirIssues(p1: string, a: seq<string>, p2: string, b: seq<string>, p3: string, c: seq<string>)
    requires p1 != p2 && p1 != p3 && p2 != p3
    ensures var r := Tag(p1, a) + Tag(p2, b) + Tag(p3, c);
            && (r == [] <==> a == [] && b == [] && c == [])
            && (forall m :: Issue(p1, m) in r <==> m in a)
            && (forall m :: Issue(p2, m) in r <==> m in b)
            && (forall m :: Issue(p3, m) in r <==> m in c)
            && (forall x :: x in r ==> x.path == p1 || x.path == p2 || x.path == p3)
  {
    TaggedMembers(p1, a);
    TaggedMembers(p2, b);
    TaggedMembers(p3, c);
    var ta, tb, tc := Tag(p1, a), Tag(p2, b), Tag(p3, c);
    var r := ta + tb + tc;
    forall x | x in r ensures x in ta || x in tb || x in tc {
    }
    forall m ensures Issue(p1, m) in r <==> m in a {
      if m in a {
        assert Issue(p1, m) in ta;
      }
    }
    forall m ensures Issue(p2, m) in r <==> m in b {
      if m in b {
        assert Issue(p2, m) in tb;
      }
    }
    forall m ensures Issue(p3, m) in r <==> m in c {
      if m in c {
        assert Issue(p3, m) in tc;
      }
    }
  }

  /** An issue is in a field's tagged list exactly when it has that path and one of its messages. */
  lemma TaggedMembers(path: string, messages: seq<string>)
    ensures forall x: Issue :: x in Tag(path, messages) <==> x.path == path && x.message in messages
  {
    var r := Tag(path, messages);
    forall x: Issue | x in r ensures x.path == path && x.message in messages {
      var i :| 0 <= i < |r| && r[i] == x;
    }
    forall x: Issue | x.path == path && x.message in messages ensures x in r {
      var i :| 0 <= i < |messages| && messages[i] == x.message;
      assert r[i] == x;
    }
  }

  /** A name made of white space only passes the name rule: two spaces are accepted. */
  lemma BlankNameIsAccepted()
    ensures NameValid("  ") && NameIssues("  ") == []
  {
    assert Utf16Length("  ") == 2 by {
      assert "  "[1..] == " ";
      assert " "[1..] == "";
    }
  }

  /** The permit type has no character restriction: any three characters of the Basic
      Multilingual Plane pass. */
  lemma AnyThreeCharactersArePermitType(a: char, b: char, c: char)
    requires a as int <= 0xFFFF && b as int <= 0xFFFF && c as int <= 0xFFFF
    ensures PermitTypeValid([a, b, c])
  {
    var s := [a, b, c];
    assert forall i :: 0 <= i < |s| ==> s[i] as int <= 0xFFFF;
  }

  /** Length is counted in code units: one character outside the Basic Multilingual Plane
      already meets a two-character minimum. */
  lemma AstralCharacterCountsTwice(c: char)
    requires c as int > 0xFFFF
    ensures Utf16Length([c]) == 2
  {
    assert [c][1..] == [];
  }
}
