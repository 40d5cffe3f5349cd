/**
 * `isValidPolishPhoneNumber` from `AJiO/Views/ListItemDetails.swift` and the
 * step of the detail view that formats a queue entry's phone number and,
 * when the formatted number is valid, offers it as a `tel:` link.
 *
 * The validator is `firstMatch` of the pattern
 *   ^(\+48[ -]?\d{3}[ -]?\d{3}[ -]?\d{3})|(^\d{2}[ -]?\d{3}[ -]?\d{3})$
 * Both alternatives are anchored at the start, so a match can only begin at
 * position 0; only the second alternative is anchored at the end. The
 * matcher below reads the pattern left to right: `[ -]?\d{3}` never needs to
 * backtrack, because a separator is never a digit.
 */
module PhoneValidation {
  import opened Api
  import opened PhoneFormat

  /** `[ -]`. */
  predicate IsSeparator(c: char) { c == ' ' || c == '-' }

  /** `[ -]?\d{3}` at the start of `s`: what follows it, or None when it does not match. */
  function Group(s: string): (r: Option<string>)
    ensures r.Some? ==> 3 <= |s| - |r.value| <= 4 && r.value == s[|s| - |r.value|..]
  {
    var t := if |s| > 0 && IsSeparator(s[0]) then s[1..] else s;
    if |t| >= 3 && IsDigit(t[0]) && IsDigit(t[1]) && IsDigit(t[2]) then Some(t[3..]) else None
  }

  /** `n` groups `[ -]?\d{3}` one after the other at the start of `s`: what follows them. */
  function Groups(s: string, n: nat): (r: Option<string>)
    ensures r.Some? ==> |r.value| <= |s| - 3 * n
  {
    if n == 0 then Some(s)
    else match Group(s)
      case None => None
      case Some(t) => Groups(t, n - 1)
  }

  /** `^\+48[ -]?\d{3}[ -]?\d{3}[ -]?\d{3}`, with anything after it. */
  predicate MatchesInternational(s: string) {
    |s| >= 3 && s[..3] == "+48" && Groups(s[3..], 3).Some?
  }

  /** `^\d{2}[ -]?\d{3}[ -]?\d{3}$`. */
  predicate MatchesDomestic(s: string) {
    |s| >= 2 && IsDigit(s[0]) && IsDigit(s[1]) && Groups(s[2..], 2) == Some("")
  }

  /**
   * `isValidPolishPhoneNumber`: some match of the pattern exists, that is, the
   * string is "+48" and three groups followed by anything, or exactly two
   * digits and two groups.
   */
  predicate IsValidPolishPhoneNumber(s: string)
    ensures IsValidPolishPhoneNumber(s) <==> InternationalForm(s) || DomesticForm(s)
  {
    InternationalMatchesForm(s);
    DomesticMatchesForm(s);
    MatchesInternational(s) || MatchesDomestic(s)
  }

  // ---------------------------------------------------------------------------
  // The language of the pattern, written as decompositions of the string.

  /** A string `[ -]?\d{3}` stands for: three digits, perhaps behind one separator. */
  predicate GroupForm(g: string) {
    || (|g| == 3 && AllDigits(g))
    || (|g| == 4 && IsSeparator(g[0]) && AllDigits(g[1..]))
  }

  /** The strings the first alternative matches a prefix of. */
  ghost predicate InternationalForm(s: string) {
    exists g1, g2, g3, rest :: GroupForm(g1) && GroupForm(g2) && GroupForm(g3)
      && s == "+48" + (g1 + (g2 + (g3 + rest)))
  }

  /** The strings the second alternative matches whole. */
  ghost predicate DomesticForm(s: string) {
    exists d, g1, g2 :: |d| == 2 && AllDigits(d) && GroupForm(g1) && GroupForm(g2)
      && s == d + (g1 + g2)
  }

  /** A group followed by anything is read as that group. */
  lemma GroupReadsForm(g: string, rest: string)
    requires GroupForm(g)
    ensures Group(g + rest) == Some(rest)
  {
    var s := g + rest;
    if |g| == 4 {
      assert s[1..] == g[1..] + rest;
      assert s[1..][3..] == rest;
    } else {
      assert !IsSeparator(s[0]);
      assert s[3..] == rest;
    }
  }

  /** What `Group` consumes is a group. */
  lemma GroupConsumesForm(s: string) returns (g: string)
    requires Group(s).Some?
    ensures GroupForm(g) && s == g + Group(s).value
  {
    g := s[..|s| - |Group(s).value|];
  }

  /** Whatever follows the groups can be changed without changing how they are read. */
  lemma {:induction false} GroupsAppend(s: string, n: nat, t: string)
    requires Groups(s, n).Some?
    ensures Groups(s + t, n) == Some(Groups(s, n).value + t)
  {
    if n > 0 {
      var rest := Group(s).value;
      var g := GroupConsumesForm(s);
      assert s + t == g + (rest + t);
      GroupReadsForm(g, rest + t);
      GroupsAppend(rest, n - 1, t);
    }
  }

  /** What the first alternative matches splits into "+48", three groups and the rest. */
  lemma InternationalMatchHasForm(s: string)
    requires MatchesInternational(s)
    ensures InternationalForm(s)
  {
    var s0 := s[3..];
    var s1 := Group(s0).value;
    var g1 := GroupConsumesForm(s0);
    assert Groups(s1, 2).Some?;
    var s2 := Group(s1).value;
    var g2 := GroupConsumesForm(s1);
    assert Groups(s2, 1).Some?;
    var s3 := Group(s2).value;
    var g3 := GroupConsumesForm(s2);
    assert s == "+48" + (g1 + (g2 + (g3 + s3)));
  }

  /** "+48" followed by three groups is matched, whatever comes after them. */
  lemma InternationalFormIsMatched(s: string)
    requires InternationalForm(s)
    ensures MatchesInternational(s)
  {
    var g1, g2, g3, rest :| GroupForm(g1) && GroupForm(g2) && GroupForm(g3)
      && s == "+48" + (g1 + (g2 + (g3 + rest)));
    assert s[3..] == g1 + (g2 + (g3 + rest));
    GroupReadsForm(g3, rest);
    assert Groups(g3 + rest, 1) == Groups(rest, 0) == Some(rest);
    GroupReadsForm(g2, g3 + rest);
    assert Groups(g2 + (g3 + rest), 2) == Some(rest);
    GroupReadsForm(g1, g2 + (g3 + rest));
    assert Groups(s[3..], 3) == Some(rest);
  }

  /** The first alternative matches exactly the strings of its language. */
  lemma InternationalMatchesForm(s: string)
    ensures MatchesInternational(s) <==> InternationalForm(s)
  {
    if MatchesInternational(s) {
      InternationalMatchHasForm(s);
    }
    if InternationalForm(s) {
      InternationalFormIsMatched(s);
    }
  }

  /** The second alternative matches exactly the strings of its language. */
  lemma DomesticMatchesForm(s: string)
    ensures MatchesDomestic(s) <==> DomesticForm(s)
  {
    if MatchesDomestic(s) {
      var s0 := s[2..];
      var s1 := Group(s0).value;
      var g1 := GroupConsumesForm(s0);
      assert Groups(s1, 1) == Some("");
      var s2 := Group(s1).value;
      var g2 := GroupConsumesForm(s1);
      assert s2 == Groups(s2, 0).value == "";
      assert s == s[..2] + (g1 + g2);
    }
    if DomesticForm(s) {
      var d, g1, g2 :| |d| == 2 && AllDigits(d) && GroupForm(g1) && GroupForm(g2)
        && s == d + (g1 + g2);
      assert s[2..] == g1 + g2;
      assert g2 == g2 + "";
      GroupReadsForm(g2, "");
      assert Groups(g2, 1) == Groups("", 0) == Some("");
      GroupReadsForm(g1, g2);
    }
  }

  /**
   * Text after a number that matches the first alternative is accepted, since
   * that alternative has no end anchor; a number that only matches the second
   * one is no longer accepted once anything follows it.
   */
  lemma TrailingText(s: string, t: string)
    ensures MatchesInternational(s) ==> MatchesInternational(s + t)
    ensures MatchesDomestic(s) && t != "" ==> !MatchesDomestic(s + t)
  {
    if MatchesInternational(s) {
      assert (s + t)[..3] == s[..3];
      assert (s + t)[3..] == s[3..] + t;
      GroupsAppend(s[3..], 3, t);
    }
    if MatchesDomestic(s) && t != "" {
      assert (s + t)[2..] == s[2..] + t;
      GroupsAppend(s[2..], 2, t);
      assert "" + t == t;
    }
  }

  /**
   * What is rejected: the empty string, a string that starts with '+' but not
   * with "+48", and one that starts with '+' and is too short to hold "+48"
   * and nine digits, such as "+4812345678".
   */
  lemma Rejected(s: string)
    ensures !IsValidPolishPhoneNumber("")
    ensures |s| > 0 && s[0] == '+' && !(|s| >= 3 && s[..3] == "+48") ==> !IsValidPolishPhoneNumber(s)
    ensures |s| < 12 && |s| > 0 && s[0] == '+' ==> !IsValidPolishPhoneNumber(s)
    ensures !IsValidPolishPhoneNumber("+4812345678")
  {
    assert |"+4812345678"| == 11 && "+4812345678"[0] == '+';
  }

  // ---------------------------------------------------------------------------
  // The detail view: format the entry's phone number, then validate it.

  /** The view offers a phone link: the entry has a number and its formatted form is valid. */
  predicate ShowsPhoneLink(phone: Option<string>)
    ensures ShowsPhoneLink(phone) <==> phone.Some? && MatchesInternational(FormatPhoneNumber(phone.value))
    ensures ShowsPhoneLink(phone) ==> |phone.value| > 1
  {
    if phone.None? then false
    else
      FormattedNumbersAreNeverDomestic(phone.value);
      IsValidPolishPhoneNumber(FormatPhoneNumber(phone.value))
  }

  /** A formatted number never starts with a digit, so on it only the first alternative can match. */
  lemma FormattedNumbersAreNeverDomestic(p: string)
    ensures !MatchesDomestic(FormatPhoneNumber(p))
    ensures IsValidPolishPhoneNumber(FormatPhoneNumber(p)) <==> MatchesInternational(FormatPhoneNumber(p))
  {
  }

  /**
   * A link is shown only for a number that, without its dashes, starts with
   * "+48", or with "48" when it had no leading '+'.
   */
  lemma LinkNeedsCountryCode(p: string)
    requires ShowsPhoneLink(Some(p))
    ensures var r := RemoveDashes(p);
      if p[0] == '+' then |r| >= 3 && r[..3] == "+48" else |r| >= 2 && r[..2] == "48"
  {
    var f := FormatPhoneNumber(p);
    if p[0] != '+' {
      assert f == "+" + RemoveDashes(p);
      assert f[1..3] == RemoveDashes(p)[..2];
    }
  }

  /** Every number the API writes as "48-ddd-ddd-ddd" gets a link. */
  lemma DashedNumberShowsLink(b: string, c: string, d: string)
    requires |b| == 3 && AllDigits(b) && |c| == 3 && AllDigits(c) && |d| == 3 && AllDigits(d)
    ensures ShowsPhoneLink(Some("48-" + b + "-" + c + "-" + d))
  {
    var p := "48-" + b + "-" + c + "-" + d;
    assert p == "48" + "-" + b + "-" + c + "-" + d;
    FormatJoinsDashedGroups("48", b, c, d);
    var f := FormatPhoneNumber(p);
    assert f == "+48" + (b + (c + d));
    assert f[..3] == "+48" && f[3..] == b + (c + d);
    assert GroupForm(b) && GroupForm(c) && GroupForm(d);
    assert d == d + "";
    GroupReadsForm(d, "");
    assert Groups(d, 1) == Groups("", 0) == Some("");
    GroupReadsForm(c, d);
    assert Groups(c + d, 2) == Some("");
    GroupReadsForm(b, c + d);
    assert Groups(f[3..], 3) == Some("");
    assert MatchesInternational(f);
  }

  /** A domestic number written "dd ddd ddd" is valid as it stands. */
  lemma DomesticNumberIsValid(a: string, b: string, c: string)
    requires |a| == 2 && AllDigits(a) && |b| == 3 && AllDigits(b) && |c| == 3 && AllDigits(c)
    ensures MatchesDomestic(a + " " + b + " " + c)
  {
    var gb, gc := " " + b, " " + c;
    assert a + " " + b + " " + c == a + (gb + gc);
    assert GroupForm(gb) && GroupForm(gc);
    DomesticMatchesForm(a + (gb + gc));
  }

  /**
   * Formatting puts a '+' in front of a domestic number "dd ddd ddd", and then
   * no alternative matches: it never gets a link.
   */
  lemma DomesticNumberShowsNoLink(a: string, b: string, c: string)
    requires |a| == 2 && AllDigits(a) && |b| == 3 && AllDigits(b) && |c| == 3 && AllDigits(c)
    ensures !ShowsPhoneLink(Some(a + " " + b + " " + c))
  {
    var gb, gc := " " + b, " " + c;
    var p := a + " " + b + " " + c;
    assert DashFree(p);
    RemoveDashesKeepsDashFree(p);
    var f := FormatPhoneNumber(p);
    assert f == "+" + p;
    assert f[3..] == gb + (gc + "");
    GroupReadsForm(gb, gc + "");
    GroupReadsForm(gc, "");
    assert Groups(f[3..], 3) == Groups("", 1) == None;
  }

  // ---------------------------------------------------------------------------
  // The `tel:` link built from the formatted number.

  /** The link target as the view writes it: "tel:+" in front of the formatted number. */
  function PhoneURLAsWritten(formatted: string): (u: string)
    ensures |u| == |formatted| + 5 && u[..5] == "tel:+" && u[5..] == formatted
  {
    "tel:+" + formatted
  }

  /** The formatted number already starts with '+', so every link the view shows dials "++". */
  lemma LinkDoublesPlus(p: string)
    requires ShowsPhoneLink(Some(p))
    ensures PhoneURLAsWritten(FormatPhoneNumber(p))[..6] == "tel:++"
  {
  }

  /** The link target with the scheme alone in front of the formatted number. */
  function PhoneURL(formatted: string): (u: string)
    ensures |u| == |formatted| + 4 && u[..4] == "tel:" && u[4..] == formatted
  {
    "tel:" + formatted
  }

  /** With the scheme alone, every link the view shows is a "tel:+48" number followed by its digit groups. */
  lemma LinkDialsCountryCode(p: string)
    requires ShowsPhoneLink(Some(p))
    ensures var u := PhoneURL(FormatPhoneNumber(p));
      u[..7] == "tel:+48" && Groups(u[7..], 3).Some?
  {
    var f := FormatPhoneNumber(p);
    var u := PhoneURL(f);
    assert u[7..] == f[3..];
  }
}
