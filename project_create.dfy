/**
 * `Number.parseInt` without a radix argument, as used by the team-size
 * field: skip leading whitespace, read an optional sign, switch to base 16
 * after a `0x`/`0X` prefix, then read the longest run of digits. No digits
 * gives NaN.
 */
module ParseInt {
  import opened Text

  /** A result of `parseInt`. `-0` and `0` are both `Num(0)`: every caller here treats them alike. */
  datatype Parsed = NaN | Num(value: int)

  /** The digit value of a character in any base up to 36; 36 for a character that is no digit. */
  function DigitValue(c: char): nat
  {
    if '0' <= c <= '9' then (c - '0') as nat
    else if 'a' <= c <= 'z' then (c - 'a') as nat + 10
    else if 'A' <= c <= 'Z' then (c - 'A') as nat + 10
    else 36
  }

  predicate IsDigit(c: char, radix: nat)
  {
    DigitValue(c) < radix
  }

  /** The longest prefix of `s` made of digits of `radix`. */
  function DigitPrefix(s: string, radix: nat): (r: string)
    ensures |r| <= |s| && r == s[..|r|]
    ensures forall i :: 0 <= i < |r| ==> IsDigit(r[i], radix)
    ensures |r| < |s| ==> !IsDigit(s[|r|], radix)
  {
    if s == [] || !IsDigit(s[0], radix) then [] else [s[0]] + DigitPrefix(s[1..], radix)
  }

  /** The number a digit string denotes, most significant digit first. */
  function DigitsValue(ds: string, radix: nat): nat
  {
    if ds == [] then 0 else DigitsValue(ds[..|ds| - 1], radix) * radix + DigitValue(ds[|ds| - 1])
  }

  /** `Number.parseInt(s)`: trim the start, then read a signed number. */
  function Parse(s: string): Parsed
  {
    Signed(TrimStart(s))
  }

  /** An optional `-` or `+`, then an unsigned number. */
  function Signed(t: string): Parsed
  {
    if t != [] && t[0] == '-' then Negate(Unsigned(t[1..]))
    else if t != [] && t[0] == '+' then Unsigned(t[1..])
    else Unsigned(t)
  }

  function Negate(p: Parsed): Parsed
  {
    match p
    case NaN => NaN
    case Num(v) => Num(-v)
  }

  /** Base 16 after a `0x` or `0X` prefix, base 10 otherwise; the longest run of digits, NaN when there is none. */
  function Unsigned(u: string): Parsed
  {
    var hex := |u| >= 2 && u[0] == '0' && (u[1] == 'x' || u[1] == 'X');
    var radix := if hex then 16 else 10;
    var digits := DigitPrefix(if hex then u[2..] else u, radix);
    if digits == [] then NaN else Num(DigitsValue(digits, radix))
  }

  /** The decimal numeral of `n`, with no leading zeros. */
  function Numeral(n: nat): (r: string)
    ensures r != []
    ensures forall i :: 0 <= i < |r| ==> IsDigit(r[i], 10)
  {
    var d := ['0' + (n % 10) as char];
    if n < 10 then d else Numeral(n / 10) + d
  }

  /** A numeral denotes its number. */
  lemma {:induction false} NumeralValue(n: nat)
    ensures DigitsValue(Numeral(n), 10) == n
  {
    if n >= 10 {
      NumeralValue(n / 10);
      var r := Numeral(n);
      assert r[..|r| - 1] == Numeral(n / 10);
    }
  }

  /** Reading digits stops exactly at the first character that is no digit. */
  lemma {:induction false} DigitPrefixOfDigits(ds: string, rest: string, radix: nat)
    requires forall i :: 0 <= i < |ds| ==> IsDigit(ds[i], radix)
    requires rest == [] || !IsDigit(rest[0], radix)
    ensures DigitPrefix(ds + rest, radix) == ds
  {
    if ds != [] {
      assert (ds + rest)[1..] == ds[1..] + rest;
      DigitPrefixOfDigits(ds[1..], rest, radix);
    }
  }

  /** A string that starts with a character other than whitespace is not changed by trimming its start. */
  lemma TrimStartKeeps(s: string)
    requires s != [] && !IsWhitespace(s[0])
    ensures TrimStart(s) == s
  {
  }

  /** What may follow a numeral without changing what `parseInt` reads (for example ".5" or "e3"). */
  predicate EndsNumeral(rest: string)
  {
    rest == [] || (!IsDigit(rest[0], 10) && rest[0] != 'x' && rest[0] != 'X')
  }

  lemma NumeralNotHex(n: nat, rest: string)
    requires EndsNumeral(rest)
    ensures var u := Numeral(n) + rest; !(|u| >= 2 && u[0] == '0' && (u[1] == 'x' || u[1] == 'X'))
  {
    var u := Numeral(n) + rest;
    if |u| >= 2 {
      if |Numeral(n)| >= 2 {
        assert u[1] == Numeral(n)[1];
      } else {
        assert u[1] == rest[0];
      }
    }
  }

  lemma UnsignedNumeral(n: nat, rest: string)
    requires EndsNumeral(rest)
    ensures Unsigned(Numeral(n) + rest) == Num(n)
  {
    NumeralValue(n);
    NumeralNotHex(n, rest);
    DigitPrefixOfDigits(Numeral(n), rest, 10);
  }

  /** A string that starts with a digit is read as it stands, after a `+`, or negated after a `-`. */
  lemma ParseSignedDigits(u: string, n: nat)
    requires u != [] && IsDigit(u[0], 10) && Unsigned(u) == Num(n)
    ensures Parse(u) == Num(n)
    ensures Parse("+" + u) == Num(n)
    ensures Parse("-" + u) == Num(-(n as int))
  {
    TrimStartKeeps(u);
    TrimStartKeeps("+" + u);
    TrimStartKeeps("-" + u);
    assert ("+" + u)[1..] == u;
    assert ("-" + u)[1..] == u;
  }

  /** `parseInt` reads back a decimal numeral, with or without a sign, whatever follows it. */
  lemma ParseNumeral(n: nat, rest: string)
    requires EndsNumeral(rest)
    ensures Parse(Numeral(n) + rest) == Num(n)
    ensures Parse("+" + (Numeral(n) + rest)) == Num(n)
    ensures Parse("-" + (Numeral(n) + rest)) == Num(-(n as int))
  {
    var u := Numeral(n) + rest;
    UnsignedNumeral(n, rest);
    assert u[0] == Numeral(n)[0];
    ParseSignedDigits(u, n);
  }

  /** A blank input is NaN. */
  lemma ParseNoDigits(s: string)
    requires forall i :: 0 <= i < |s| ==> IsWhitespace(s[i])
    ensures Parse(s) == NaN
  {
  }
}

/**
 * The project form (`app/projects/create/page.tsx`): tag and contributor-role
 * toggles, the team-size field and the catalogues of buttons still offered.
 */
module ProjectCreate {
  import opened Text
  import opened Tags
  import opened Seqs
  import opened ParseInt

  const AvailableTags: seq<string> := [
    "React", "Vue.js", "Angular", "Node.js", "Python", "JavaScript", "TypeScript", "Java",
    "C++", "Swift", "Kotlin", "Flutter", "React Native", "UI/UX Design", "Figma",
    "Adobe Creative Suite", "Machine Learning", "AI", "Data Science", "Blockchain",
    "Web Development", "Mobile Development", "Game Development", "DevOps", "Cloud Computing",
    "Cybersecurity", "IoT", "AR/VR", "Fintech", "Healthcare", "Education", "Social Impact",
    "Sustainability", "E-commerce", "Open Source"]

  const ContributorRoles: seq<string> := [
    "Frontend Developer", "Backend Developer", "Full Stack Developer", "UI/UX Designer",
    "Product Manager", "Data Scientist", "DevOps Engineer", "Marketing Specialist",
    "Content Writer", "QA Tester"]

  /** The form's `formData` (the uploaded image left out). */
  datatype ProjectForm = ProjectForm(
    title: string,
    description: string,
    tags: seq<string>,
    status: string,
    teamSize: int,
    githubUrl: string,
    liveUrl: string,
    isOpenSource: bool,
    lookingForContributors: bool,
    contributorRoles: seq<string>)

  const InitialForm: ProjectForm := ProjectForm("", "", [], "", 1, "", "", false, false, [])

  /** `Number.parseInt(value) || 1`: NaN and zero fall back to 1; every other number is kept, a negative one too. */
  function TeamSize(input: string): (n: int)
    ensures n != 0
    ensures Parse(input).NaN? ==> n == 1
    ensures Parse(input) == Num(0) ==> n == 1
    ensures Parse(input).Num? && Parse(input).value != 0 ==> n == Parse(input).value
  {
    match Parse(input)
    case NaN => 1
    case Num(v) => if v == 0 then 1 else v
  }

  /** Typing a positive numeral sets exactly that team size. */
  lemma TeamSizeOfNumeral(n: nat, rest: string)
    requires n >= 1 && EndsNumeral(rest)
    ensures TeamSize(Numeral(n) + rest) == n
  {
    ParseNumeral(n, rest);
  }

  /** "0" and "-0" both give 1. */
  lemma ZeroTeamSizeIsOne(rest: string)
    requires EndsNumeral(rest)
    ensures TeamSize(Numeral(0) + rest) == 1
    ensures TeamSize("-" + (Numeral(0) + rest)) == 1
  {
    ParseNumeral(0, rest);
  }

  lemma BlankTeamSizeIsOne(s: string)
    requires forall i :: 0 <= i < |s| ==> IsWhitespace(s[i])
    ensures TeamSize(s) == 1
  {
    ParseNoDigits(s);
  }

  /** The page's state. */
  class CreateProjectPage {
    var formData: ProjectForm

    constructor ()
      ensures formData == InitialForm
    {
      formData := InitialForm;
    }

    /** `handleTagToggle`: only `tags` changes. */
    method HandleTagToggle(tag: string)
      modifies this
      ensures formData == old(formData).(tags := Toggle(old(formData).tags, tag))
    {
      formData := formData.(tags := Toggle(formData.tags, tag));
    }

    /** `handleRoleToggle`: only `contributorRoles` changes. */
    method HandleRoleToggle(role: string)
      modifies this
      ensures formData == old(formData).(contributorRoles := Toggle(old(formData).contributorRoles, role))
    {
      formData := formData.(contributorRoles := Toggle(formData.contributorRoles, role));
    }

    /** The team-size input's `onChange`. */
    method SetTeamSize(input: string)
      modifies this
      ensures formData == old(formData).(teamSize := TeamSize(input))
      ensures formData.teamSize != 0
    {
      formData := formData.(teamSize := TeamSize(input));
    }

    /** The tag buttons still offered. */
    function OfferedTags(): (r: seq<string>)
      reads this
      ensures forall x :: x in r <==> x in AvailableTags && x !in formData.tags
      ensures IsSubsequence(r, AvailableTags)
    {
      AvailableSplitsOptions(AvailableTags, formData.tags);
      Available(AvailableTags, formData.tags)
    }

    /** The role buttons still offered. */
    function OfferedRoles(): (r: seq<string>)
      reads this
      ensures forall x :: x in r <==> x in ContributorRoles && x !in formData.contributorRoles
      ensures IsSubsequence(r, ContributorRoles)
    {
      AvailableSplitsOptions(ContributorRoles, formData.contributorRoles);
      Available(ContributorRoles, formData.contributorRoles)
    }
  }
}
