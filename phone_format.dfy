/**
 * `String.formatPhoneNumber()` from `AJiO/Extensions/String+ext.swift`: a
 * phone number as the queue API gives it is shown without dashes and with a
 * leading '+'. Characters stand for Swift's `Character`s.
 */
module PhoneFormat {

  /** `r` is `s` with some characters left out, the rest in their order. */
  predicate IsSubsequence(r: string, s: string)
    decreases |s|
  {
    if r == [] then true
    else if s == [] then false
    else if r[0] == s[0] then IsSubsequence(r[1..], s[1..])
    else IsSubsequence(r, s[1..])
  }

  /** A string with no dash in it. */
  predicate DashFree(s: string) { forall i :: 0 <= i < |s| ==> s[i] != '-' }

  /** `replacingOccurrences(of: "-", with: "")`. */
  function RemoveDashes(s: string): (r: string)
    ensures DashFree(r)
  {
    if s == [] then []
    else if s[0] == '-' then RemoveDashes(s[1..])
    else [s[0]] + RemoveDashes(s[1..])
  }

  /**
   * Every character other than a dash is kept, in its order, and as often as
   * it occurs; so the length drops by the number of dashes.
   */
  lemma {:induction false} RemoveDashesKeepsOthers(s: string)
    ensures IsSubsequence(RemoveDashes(s), s)
    ensures multiset(RemoveDashes(s)) == multiset(s)['-' := 0]
    ensures |RemoveDashes(s)| == |s| - multiset(s)['-']
  {
    if s != [] {
      RemoveDashesKeepsOthers(s[1..]);
      assert s == [s[0]] + s[1..];
      var rest := RemoveDashes(s[1..]);
      if s[0] != '-' {
        assert ([s[0]] + rest)[1..] == rest;
      }
    }
  }

  /** A string without dashes is left as it is. */
  lemma {:induction false} RemoveDashesKeepsDashFree(s: string)
    requires DashFree(s)
    ensures RemoveDashes(s) == s
  {
    if s != [] {
      RemoveDashesKeepsDashFree(s[1..]);
    }
  }

  /** `formatPhoneNumber()`. */
  function FormatPhoneNumber(s: string): (r: string)
    ensures |s| <= 1 ==> r == ""
    ensures |s| > 1 ==> |r| > 0 && r[0] == '+'
    ensures DashFree(r)
  {
    if |s| <= 1 then ""
    else if s[0] != '+' then "+" + RemoveDashes(s)
    else RemoveDashes(s)
  }

  /**
   * What a longer number becomes: a '+' when it did not start with one,
   * followed by all of its characters except the dashes, in their order.
   */
  lemma FormatKeepsOtherCharacters(s: string)
    requires |s| > 1
    ensures var r := FormatPhoneNumber(s);
      var k := if s[0] == '+' then 0 else 1;
      && |r| == |s| - multiset(s)['-'] + k
      && r[..k] == (if k == 1 then "+" else "")
      && IsSubsequence(r[k..], s)
      && multiset(r[k..]) == multiset(s)['-' := 0]
  {
    var r := FormatPhoneNumber(s);
    RemoveDashesKeepsOthers(s);
    if s[0] == '+' {
      assert r[0..] == r;
    } else {
      assert r[1..] == RemoveDashes(s);
    }
  }

  /** Formatting a formatted number of more than one character changes nothing. */
  lemma FormatIsIdempotent(s: string)
    requires |FormatPhoneNumber(s)| > 1
    ensures FormatPhoneNumber(FormatPhoneNumber(s)) == FormatPhoneNumber(s)
  {
    RemoveDashesKeepsDashFree(FormatPhoneNumber(s));
  }

  /** Without the length condition it fails: "--" becomes "+", and "+" becomes "". */
  lemma FormatOfShortOutputIsEmpty()
    ensures FormatPhoneNumber("--") == "+"
    ensures FormatPhoneNumber("+") == ""
  {
    assert RemoveDashes("--") == RemoveDashes("-") == RemoveDashes("");
  }

  /** Removing dashes part by part is removing them from the whole. */
  lemma {:induction false} RemoveDashesAppend(a: string, b: string)
    ensures RemoveDashes(a + b) == RemoveDashes(a) + RemoveDashes(b)
  {
    if a != [] {
      RemoveDashesAppend(a[1..], b);
      var ab := a + b;
      assert ab != [] && ab[0] == a[0] && ab[1..] == a[1..] + b;
      if a[0] == '-' {
        assert RemoveDashes(ab) == RemoveDashes(a[1..] + b);
      } else {
        assert RemoveDashes(ab) == [a[0]] + RemoveDashes(a[1..] + b);
        assert RemoveDashes(a) == [a[0]] + RemoveDashes(a[1..]);
      }
    } else {
      assert a + b == b;
    }
  }

  /** Two parts joined by a dash lose the dash and nothing else. */
  lemma RemoveDashesAcrossDash(a: string, b: string)
    ensures RemoveDashes(a + "-" + b) == RemoveDashes(a) + RemoveDashes(b)
  {
    RemoveDashesAppend(a + "-", b);
    RemoveDashesAppend(a, "-");
    assert RemoveDashes("-") == RemoveDashes("");
  }

  /**
   * Groups written with dashes between them, the way the API lists numbers
   * ("48-123-456-789"), come out as one run of characters behind a '+'.
   */
  lemma FormatJoinsDashedGroups(a: string, b: string, c: string, d: string)
    requires DashFree(a) && DashFree(b) && DashFree(c) && DashFree(d)
    requires |a| > 0 && a[0] != '+'
    ensures FormatPhoneNumber(a + "-" + b + "-" + c + "-" + d) == "+" + a + b + c + d
  {
    var ab := a + "-" + b;
    var abc := ab + "-" + c;
    assert (abc + "-" + d)[0] == a[0];
    RemoveDashesKeepsDashFree(a);
    RemoveDashesKeepsDashFree(b);
    RemoveDashesKeepsDashFree(c);
    RemoveDashesKeepsDashFree(d);
    RemoveDashesAcrossDash(a, b);
    RemoveDashesAcrossDash(ab, c);
    RemoveDashesAcrossDash(abc, d);
  }

  /** A number that already starts with '+' keeps it and only loses its dashes. */
  lemma FormatKeepsPlus(a: string, b: string)
    requires DashFree(a) && DashFree(b)
    ensures FormatPhoneNumber("+" + a + "-" + b) == "+" + a + b
  {
    var pa := "+" + a;
    assert (pa + "-" + b)[0] == '+';
    assert DashFree(pa);
    RemoveDashesKeepsDashFree(pa);
    RemoveDashesKeepsDashFree(b);
    RemoveDashesAcrossDash(pa, b);
  }
}
