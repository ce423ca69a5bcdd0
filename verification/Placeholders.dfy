/** Placeholder names, and that they determine the entity type and the running number. */
module Placeholders {
  import opened Text
  import opened Merge
  import opened Restore

  function TypeName(t: EntityType): string {
    match t
    case Organization => "organization"
    case Person => "person"
    case ProjectCode => "project_code"
    case SecretKeywordBlacklist => "secret_keyword_blacklist"
    case DocumentNumber => "document_number"
    case Amount => "amount"
    case IdentityNumber => "identity_number"
    case UnifiedSocialCreditCode => "unified_social_credit_code"
    case NamedEntity => "named_entity"
  }

  function UpperChar(c: char): char {
    if 'a' <= c <= 'z' then c - 'a' + 'A' else c
  }

  /** `strings.ToUpper` on the type names, which are ASCII. */
  function ToUpper(s: string): (r: string)
    ensures |r| == |s| && forall i | 0 <= i < |s| :: r[i] == UpperChar(s[i])
  {
    seq(|s|, i requires 0 <= i < |s| => UpperChar(s[i]))
  }

  function PlaceholderType(t: EntityType): string {
    ToUpper(TypeName(t))
  }

  predicate IsDigit(c: char) {
    '0' <= c <= '9'
  }

  function Digit(n: nat): (c: char)
    requires n < 10
    ensures IsDigit(c)
  {
    '0' + n as char
  }

  function Decimal(n: nat): string {
    if n < 10 then [Digit(n)] else Decimal(n / 10) + [Digit(n % 10)]
  }

  /** `%02d` */
  function Pad2(n: nat): string {
    if n < 10 then "0" + Decimal(n) else Decimal(n)
  }

  function PlaceholderFor(t: EntityType, sequence: nat): string {
    [OPEN] + PlaceholderType(t) + "_" + Pad2(sequence) + [CLOSE]
  }

  // ---- Injectivity ------------------------------------------------------------------

  ghost function Value(s: string): int {
    if s == "" then 0 else 10 * Value(s[..|s| - 1]) + (s[|s| - 1] as int - '0' as int)
  }

  lemma {:induction false} DecimalValue(n: nat)
    ensures Value(Decimal(n)) == n
    ensures forall i | 0 <= i < |Decimal(n)| :: IsDigit(Decimal(n)[i])
  {
    if n < 10 {
      assert Decimal(n)[..0] == "";
    } else {
      DecimalValue(n / 10);
      assert Decimal(n)[..|Decimal(n)| - 1] == Decimal(n / 10);
    }
  }

  lemma {:induction false} LeadingZero(s: string)
    ensures Value("0" + s) == Value(s)
  {
    if s == "" {
      assert ("0" + s)[..0] == "";
    } else {
      assert ("0" + s)[..|s|] == "0" + s[..|s| - 1];
      LeadingZero(s[..|s| - 1]);
    }
  }

  lemma {:induction false} Pad2Value(n: nat)
    ensures Value(Pad2(n)) == n
    ensures forall i | 0 <= i < |Pad2(n)| :: IsDigit(Pad2(n)[i])
  {
    DecimalValue(n);
    LeadingZero(Decimal(n));
  }

  predicate NameChar(c: char) {
    'a' <= c <= 'z' || c == '_'
  }

  lemma ShortNameChars(t: EntityType)
    requires |TypeName(t)| <= 12
    ensures forall i | 0 <= i < |TypeName(t)| :: NameChar(TypeName(t)[i])
  {
  }

  lemma LongNameChars(t: EntityType)
    requires |TypeName(t)| > 12 && !t.SecretKeywordBlacklist?
    ensures forall i | 0 <= i < |TypeName(t)| :: NameChar(TypeName(t)[i])
  {
  }

  lemma {:induction false} NameChars(t: EntityType)
    ensures forall i | 0 <= i < |TypeName(t)| :: NameChar(TypeName(t)[i])
  {
    if t.SecretKeywordBlacklist? {
    } else if |TypeName(t)| <= 12 {
      ShortNameChars(t);
    } else {
      LongNameChars(t);
    }
  }

  lemma {:induction false} UpperNameChars(t: EntityType)
    ensures forall i | 0 <= i < |PlaceholderType(t)| :: 'A' <= PlaceholderType(t)[i] <= 'Z' || PlaceholderType(t)[i] == '_'
  {
    NameChars(t);
    assert forall i | 0 <= i < |PlaceholderType(t)| :: PlaceholderType(t)[i] == UpperChar(TypeName(t)[i]);
  }

  lemma {:induction false} TypeNamesDiffer(t: EntityType, u: EntityType)
    requires PlaceholderType(t) == PlaceholderType(u)
    ensures t == u
  {
    assert |TypeName(t)| == |TypeName(u)|;
    assert UpperChar(TypeName(t)[0]) == UpperChar(TypeName(u)[0]);
    NameChars(t);
    NameChars(u);
    assert TypeName(t)[0] == TypeName(u)[0];
  }

  lemma {:induction false} PlaceholderShaped(t: EntityType, n: nat)
    ensures Shaped(PlaceholderFor(t, n))
  {
    var name, digits, p := PlaceholderType(t), Pad2(n), PlaceholderFor(t, n);
    UpperNameChars(t);
    Pad2Value(n);
    var cut := |name| + 2;
    forall i | 0 < i < |p| - 1
      ensures p[i] != OPEN && p[i] != CLOSE
    {
      if i < cut - 1 {
        assert p[i] == name[i - 1];
      } else if i >= cut {
        assert p[i] == digits[i - cut];
      }
    }
  }

  /** `name` + "_" + digits is read back from the right. */
  lemma {:induction false} SuffixUnique(a: string, d: string, b: string, e: string)
    requires a + "_" + d == b + "_" + e
    requires forall i | 0 <= i < |d| :: IsDigit(d[i])
    requires forall i | 0 <= i < |e| :: IsDigit(e[i])
    ensures a == b && d == e
  {
    var s := a + "_" + d;
    assert s[|a|] == '_' && s[|b|] == '_';
    assert forall i | |a| < i < |s| :: s[i] == d[i - |a| - 1];
    assert forall i | |b| < i < |s| :: s[i] == (b + "_" + e)[i] == e[i - |b| - 1];
    assert |a| == |b|;
    assert a == s[..|a|] && b == (b + "_" + e)[..|b|];
    assert d == s[|a| + 1..] && e == (b + "_" + e)[|b| + 1..];
  }

  lemma Unwrap(a: string, d: string)
    ensures var p := [OPEN] + a + "_" + d + [CLOSE]; p[1..|p| - 1] == a + "_" + d
  {
  }

  /** The placeholder determines the type and the number. */
  lemma {:induction false} PlaceholderInjective(t: EntityType, n: nat, u: EntityType, m: nat)
    requires PlaceholderFor(t, n) == PlaceholderFor(u, m)
    ensures t == u && n == m
  {
    Pad2Value(n);
    Pad2Value(m);
    Unwrap(PlaceholderType(t), Pad2(n));
    Unwrap(PlaceholderType(u), Pad2(m));
    SuffixUnique(PlaceholderType(t), Pad2(n), PlaceholderType(u), Pad2(m));
    TypeNamesDiffer(t, u);
  }

  /** The mapper's key for an entity: its type name, a NUL and its text. */
  function Key(t: EntityType, text: string): string {
    TypeName(t) + "\0" + text
  }

  lemma {:induction false} NulSplit(a: string, x: string, b: string, y: string)
    requires a + "\0" + x == b + "\0" + y
    requires forall i | 0 <= i < |a| :: a[i] != '\0'
    requires forall i | 0 <= i < |b| :: b[i] != '\0'
    ensures a == b && x == y
  {
    var s := a + "\0" + x;
    assert s[|a|] == '\0' && s[|b|] == '\0';
    assert forall i | 0 <= i < |a| :: s[i] == a[i];
    assert forall i | 0 <= i < |b| :: s[i] == b[i];
    assert |a| == |b|;
    assert x == s[|a| + 1..] && y == (b + "\0" + y)[|b| + 1..];
  }

  lemma {:induction false} KeyInjective(t: EntityType, a: string, u: EntityType, b: string)
    requires Key(t, a) == Key(u, b)
    ensures t == u && a == b
  {
    NameChars(t);
    NameChars(u);
    NulSplit(TypeName(t), a, TypeName(u), b);
    TypeNamesDiffer(t, u);
  }

  // ---- Names as they read -------------------------------------------------------------

  lemma UpperRead()
    ensures PlaceholderType(Person) == "PERSON" && PlaceholderType(Organization) == "ORGANIZATION" && PlaceholderType(Amount) == "AMOUNT"
    ensures PlaceholderType(ProjectCode) == "PROJECT_CODE" && PlaceholderType(NamedEntity) == "NAMED_ENTITY"
  {
  }

  lemma NumbersRead()
    ensures Pad2(1) == "01" && Pad2(9) == "09" && Pad2(10) == "10" && Pad2(100) == "100"
  {
  }

  /** The first person, the twelfth project code and the hundredth amount of a request. */
  lemma {:induction false} NamesRead()
    ensures PlaceholderFor(Person, 1) == "\U{3016}PERSON_01\U{3017}"
    ensures PlaceholderFor(ProjectCode, 12) == "\U{3016}PROJECT_CODE_12\U{3017}"
    ensures PlaceholderFor(Amount, 100) == "\U{3016}AMOUNT_100\U{3017}"
  {
    UpperRead();
    NumbersRead();
    assert Pad2(12) == "12";
  }
}
