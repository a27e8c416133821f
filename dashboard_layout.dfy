/** The dashboard frame: the user's initials in the avatar, which navigation item is
    highlighted, and what is shown (or where the browser is sent) depending on the session. */
module DashboardLayout {
  import opened Outcomes
  import opened Text

  /** The first character of each field, skipping empty fields (`n[0]` of an empty word is
      `undefined`, which `join` writes as nothing). */
  function Heads(words: seq<string>): string {
    if words == [] then "" else (if words[0] == "" then "" else [words[0][0]]) + Heads(words[1..])
  }

  /** The characters that start a word: not a space, and first or right after a space. */
  function WordStarts(s: string, afterSpace: bool): string {
    if s == [] then ""
    else (if s[0] != ' ' && afterSpace then [s[0]] else "") + WordStarts(s[1..], s[0] == ' ')
  }

  /** Splitting on spaces and taking the heads picks exactly the word starts. */
  lemma {:induction false} HeadsOfSplit(s: string)
    ensures Heads(Split(s, ' ')) == WordStarts(s, true)
    ensures Heads(Split(s, ' ')[1..]) == WordStarts(s, false)
  {
    if s != [] {
      HeadsOfSplit(s[1..]);
      var rest := Split(s[1..], ' ');
      if s[0] == ' ' {
        assert Split(s, ' ') == [""] + rest;
        assert ([""] + rest)[1..] == rest;
      } else {
        var fields := [[s[0]] + rest[0]] + rest[1..];
        assert Split(s, ' ') == fields;
        assert fields[1..] == rest[1..];
      }
    }
  }

  /** `getInitials`: "U" without a name; otherwise the word starts, upper-cased, at most two. */
  function GetInitials(name: Option<string>): (initials: string)
    ensures name.None? || name.value == "" ==> initials == "U"
    ensures name.Some? && name.value != "" ==> initials == Take(AsciiUpper(WordStarts(name.value, true)), 2)
    ensures |initials| <= 2
  {
    if name.None? || name.value == "" then "U"
    else
      HeadsOfSplit(name.value);
      Take(AsciiUpper(Heads(Split(name.value, ' '))), 2)
  }

  /** A name made only of spaces has no word, so no initials at all. */
  lemma {:induction false} SpacesHaveNoWordStarts(s: string, afterSpace: bool)
    requires forall i :: 0 <= i < |s| ==> s[i] == ' '
    ensures WordStarts(s, afterSpace) == ""
  {
    if s != [] {
      SpacesHaveNoWordStarts(s[1..], true);
    }
  }

  lemma BlankNameGivesNoInitials(name: string)
    requires name != "" && forall i :: 0 <= i < |name| ==> name[i] == ' '
    ensures GetInitials(Some(name)) == ""
  {
    SpacesHaveNoWordStarts(name, true);
  }

  /** The initials of two words are their first letters. */
  lemma TwoWordInitials(first: string, second: string)
    requires first != "" && second != "" && ' ' !in first && ' ' !in second
    ensures GetInitials(Some(first + " " + second)) == AsciiUpper([first[0], second[0]])
  {
    assert ' ' !in first[1..] && ' ' !in second[1..];
    NoSpaceWordStarts(first[1..]);
    NoSpaceWordStarts(second[1..]);
    assert WordStarts(first, true) == [first[0]];
    assert (" " + second)[1..] == second;
    assert WordStarts(" " + second, false) == WordStarts(second, true) == [second[0]];
    WordStartsConcat(first, " " + second, true);
    assert first + " " + second == first + (" " + second);
    assert WordStarts(first + " " + second, true) == [first[0], second[0]];
  }

  lemma {:induction false} NoSpaceWordStarts(s: string)
    requires ' ' !in s
    ensures WordStarts(s, false) == ""
  {
    if s != [] {
      assert ' ' !in s[1..];
      NoSpaceWordStarts(s[1..]);
    }
  }

  lemma {:induction false} WordStartsConcat(a: string, b: string, afterSpace: bool)
    requires a != []
    ensures WordStarts(a + b, afterSpace) == WordStarts(a, afterSpace) + WordStarts(b, a[|a| - 1] == ' ')
  {
    assert (a + b)[1..] == a[1..] + b;
    if |a| > 1 {
      WordStartsConcat(a[1..], b, a[0] == ' ');
    } else {
      assert a[1..] == [] && a[1..] + b == b;
    }
  }

  /** A navigation item is highlighted when the path starts with its link, character by
      character (a path such as `/dashboard/chats` highlights `/dashboard/chat`). */
  predicate IsActive(pathname: Option<string>, href: string): (active: bool)
    ensures active <==>
      (pathname.Some? && |href| <= |pathname.value| && forall k :: 0 <= k < |href| ==> pathname.value[k] == href[k])
  {
    pathname.Some? && StartsWith(pathname.value, href)
  }

  const NavLinks := ["/dashboard/chat", "/dashboard/images", "/dashboard/speech", "/dashboard/analytics"]

  /** No link is a prefix of another, so at most one item is highlighted on any path. */
  lemma AtMostOneActive(pathname: Option<string>, i: nat, j: nat)
    requires i < j < |NavLinks|
    ensures !(IsActive(pathname, NavLinks[i]) && IsActive(pathname, NavLinks[j]))
  {
    if pathname.Some? {
      var p := pathname.value;
      if |p| > 11 {
        assert NavLinks[i][11] != NavLinks[j][11];
        assert StartsWith(p, NavLinks[i]) ==> p[11] == NavLinks[i][11];
        assert StartsWith(p, NavLinks[j]) ==> p[11] == NavLinks[j][11];
      }
    }
  }

  /** What the frame shows. */
  datatype View = Spinner | Blank | Dashboard

  /** While the session loads, a spinner; afterwards, without a session, nothing is shown
      and the browser is sent to `/login`; with one, the dashboard. */
  function Frame(loading: bool, isAuthenticated: bool): (r: (View, Option<string>))
    ensures r.1 == Some("/login") <==> !loading && !isAuthenticated
    ensures r.1.None? <==> loading || isAuthenticated
    ensures r.0 == Dashboard <==> !loading && isAuthenticated
    ensures r.0 == Spinner <==> loading
  {
    var redirect := if !loading && !isAuthenticated then Some("/login") else None;
    var view := if loading then Spinner else if !isAuthenticated then Blank else Dashboard;
    (view, redirect)
  }
}
