/**
 * The pure parts of the navigation bar: the initials on the profile button, the test
 * that hides the bar on the authentication pages, and which links it shows for the
 * user that GET /api/users/me returned (None when that request failed).
 */
module Navbar {
  import opened Wrappers
  import opened UserModel

  /** `s.split(' ')`: the pieces between single spaces, empty pieces included, so there
      is always at least one. */
  function Split(s: string): (words: seq<string>)
    ensures |words| >= 1
    decreases |s|
  {
    if s == [] then [""]
    else
      var rest := Split(s[1..]);
      if s[0] == ' ' then [""] + rest
      else [[s[0]] + rest[0]] + rest[1..]
  }

  /** `words.join(' ')`. */
  function JoinWithSpaces(words: seq<string>): string
    requires |words| >= 1
    decreases |words|
  {
    if |words| == 1 then words[0] else words[0] + " " + JoinWithSpaces(words[1..])
  }

  /** Splitting and joining on spaces gives the string back. */
  lemma {:induction false} JoinSplit(s: string)
    ensures JoinWithSpaces(Split(s)) == s
    decreases |s|
  {
    if s != [] {
      var rest := Split(s[1..]);
      JoinSplit(s[1..]);
      if s[0] == ' ' {
        assert Split(s)[1..] == rest;
      } else {
        var words := Split(s);
        assert words[1..] == rest[1..];
        if |rest| > 1 {
          assert JoinWithSpaces(rest) == rest[0] + " " + JoinWithSpaces(rest[1..]);
        }
      }
    }
  }

  /** No piece of a split contains a space. */
  lemma {:induction false} SplitWordsHaveNoSpace(s: string)
    ensures forall i :: 0 <= i < |Split(s)| ==> ' ' !in Split(s)[i]
    decreases |s|
  {
    if s != [] {
      SplitWordsHaveNoSpace(s[1..]);
      var rest := Split(s[1..]);
      if s[0] != ' ' {
        assert ' ' !in rest[0];
        assert ' ' !in [s[0]] + rest[0];
      }
    }
  }

  /** `word[0]` rendered by `join('')`: the first character, and "" for the
      `undefined` an empty word yields. */
  function FirstChar(word: string): string
  {
    if word == [] then [] else [word[0]]
  }

  /** `words.map(word => word[0]).join('')`. */
  function JoinFirstChars(words: seq<string>): string
    decreases |words|
  {
    if words == [] then [] else FirstChar(words[0]) + JoinFirstChars(words[1..])
  }

  /** The reference reading of "initials": every non-space character that opens the
      string or follows a space, in order. `atStart` says whether the previous
      character was a space (or there was none). */
  function WordStarts(s: string, atStart: bool): string
    decreases |s|
  {
    if s == [] then []
    else (if atStart && s[0] != ' ' then [s[0]] else []) + WordStarts(s[1..], s[0] == ' ')
  }

  /** The first characters of the split pieces are exactly the word starts; the empty
      pieces that repeated or leading spaces produce contribute nothing. */
  lemma {:induction false} FirstCharsAreWordStarts(s: string)
    ensures JoinFirstChars(Split(s)) == WordStarts(s, true)
    ensures JoinFirstChars(Split(s)[1..]) == WordStarts(s, false)
    decreases |s|
  {
    if s != [] {
      FirstCharsAreWordStarts(s[1..]);
      var rest := Split(s[1..]);
      var words := Split(s);
      if s[0] == ' ' {
        assert words[0] == "" && words[1..] == rest;
      } else {
        assert words[0] == [s[0]] + rest[0] && words[1..] == rest[1..];
        assert FirstChar(words[0]) == [s[0]];
      }
    }
  }

  /** `toUpperCase` on one character, for the ASCII letters: a lower-case letter becomes
      the same letter of the alphabet in upper case, anything else is kept. */
  function UpperChar(c: char): (r: char)
    ensures !('a' <= r <= 'z')
    ensures 'a' <= c <= 'z' ==> 'A' <= r <= 'Z' && r as int - 'A' as int == c as int - 'a' as int
    ensures !('a' <= c <= 'z') ==> r == c
  {
    if 'a' <= c <= 'z' then (c as int - 32) as char else c
  }

  /** `toUpperCase` on a string: no lower-case letter is left, each lower-case letter
      becomes its upper-case letter in place, every other character is kept. */
  function Upper(s: string): (r: string)
    ensures |r| == |s|
    ensures forall i :: 0 <= i < |r| ==> !('a' <= r[i] <= 'z')
    ensures forall i :: 0 <= i < |s| && 'a' <= s[i] <= 'z' ==>
      'A' <= r[i] <= 'Z' && r[i] as int - 'A' as int == s[i] as int - 'a' as int
    ensures forall i :: 0 <= i < |s| && !('a' <= s[i] <= 'z') ==> r[i] == s[i]
  {
    seq(|s|, i requires 0 <= i < |s| => UpperChar(s[i]))
  }

  /** Upper-casing twice is upper-casing once. */
  lemma UpperIdempotent(s: string)
    ensures Upper(Upper(s)) == Upper(s)
  {
    var once := Upper(s);
    assert forall i :: 0 <= i < |once| ==> Upper(once)[i] == once[i];
  }

  /** `getInitials`: split on spaces, first character of each piece, joined,
      upper-cased, first two characters kept. */
  function GetInitials(name: string): (r: string)
    ensures |r| <= 2
  {
    var joined := Upper(JoinFirstChars(Split(name)));
    if |joined| <= 2 then joined else joined[..2]
  }

  /** The initials are the first two word starts of the name, upper-cased. */
  lemma InitialsOfWordStarts(name: string)
    ensures var starts := Upper(WordStarts(name, true));
      GetInitials(name) == if |starts| <= 2 then starts else starts[..2]
  {
    FirstCharsAreWordStarts(name);
  }

  /** Unfolding one character of `WordStarts`. */
  lemma WordStartsCons(c: char, s: string, atStart: bool)
    ensures WordStarts([c] + s, atStart) == (if atStart && c != ' ' then [c] else []) + WordStarts(s, c == ' ')
  {
    assert ([c] + s)[1..] == s;
  }

  /** A two-word name: "A Doe" gives "AD". */
  lemma InitialsOfADoe()
    ensures GetInitials("A Doe") == "AD"
  {
    InitialsOfWordStarts("A Doe");
    WordStartsCons('e', "", false);
    WordStartsCons('o', "e", false);
    WordStartsCons('D', "oe", true);
    WordStartsCons(' ', "Doe", false);
    WordStartsCons('A', " Doe", true);
    assert "A Doe" == ['A'] + " Doe";
    var upper := Upper("AD");
    assert upper[0] == 'A' && upper[1] == 'D';
    assert upper == "AD";
  }

  /** Leading and repeated spaces add no initials: " a  b" gives "AB". */
  lemma InitialsSkipEmptyWords()
    ensures GetInitials(" a  b") == "AB"
  {
    InitialsOfWordStarts(" a  b");
    WordStartsCons('b', "", true);
    WordStartsCons(' ', "b", true);
    WordStartsCons(' ', " b", false);
    WordStartsCons('a', "  b", true);
    WordStartsCons(' ', "a  b", true);
    assert " a  b" == [' '] + "a  b";
    var upper := Upper("ab");
    assert upper[0] == 'A' && upper[1] == 'B';
    assert upper == "AB";
  }

  /** `s.startsWith(prefix)`. */
  predicate StartsWith(s: string, prefix: string)
  {
    |prefix| <= |s| && s[..|prefix|] == prefix
  }

  /** `isAuthPage`: the path begins with "/login", "/signup" or "/forgotPassword"
      (a character-wise prefix, not a path segment); a null pathname is not one. */
  predicate IsAuthPage(pathname: Option<string>)
  {
    pathname.Some? &&
      (StartsWith(pathname.value, "/login") ||
       StartsWith(pathname.value, "/signup") ||
       StartsWith(pathname.value, "/forgotPassword"))
  }

  lemma AuthPrefixes(suffix: string)
    ensures IsAuthPage(Some("/login" + suffix))
    ensures IsAuthPage(Some("/signup" + suffix))
    ensures IsAuthPage(Some("/forgotPassword" + suffix))
  {
    assert ("/login" + suffix)[..6] == "/login";
    assert ("/signup" + suffix)[..7] == "/signup";
    assert ("/forgotPassword" + suffix)[..15] == "/forgotPassword";
  }

  lemma OtherPagesShowNavbar()
    ensures !IsAuthPage(None)
    ensures !IsAuthPage(Some("/"))
    ensures !IsAuthPage(Some("/registerHospital"))
    ensures !IsAuthPage(Some("/hospitalList"))
  {
    assert "/registerHospital"[1] == 'r';
    assert "/hospitalList"[1] == 'h';
    assert "/login"[1] == 'l' && "/signup"[1] == 's' && "/forgotPassword"[1] == 'f';
  }

  /** Where the logo and Home links point. */
  datatype Href = Root | ProfilePage(id: UserId)

  function HomeHref(user: Option<PublicUser>): (href: Href)
    ensures href.ProfilePage? <==> user.Some?
    ensures href.ProfilePage? ==> href.id == user.value.id
  {
    if user.Some? then ProfilePage(user.value.id) else Root
  }

  /** What the bar shows off the authentication pages. */
  datatype View = View(
    home: Href,
    memberLinks: bool,        // Popular Hospitals, About, Contact
    registerHospital: bool,   // the green "Register Hospital" link
    authButtons: bool,        // Login and Sign Up
    initials: Option<string>) // the profile button

  /** The bar for a path and a user: None (nothing rendered) on an authentication page. */
  function Render(pathname: Option<string>, user: Option<PublicUser>): (v: Option<View>)
    ensures v.None? <==> IsAuthPage(pathname)
  {
    if IsAuthPage(pathname) then None
    else Some(View(
      HomeHref(user),
      user.Some?,
      user.Some? && user.value.role == Doctor,
      user.None?,
      if user.Some? then Some(GetInitials(user.value.name)) else None))
  }

  /** Off the authentication pages: member links and the profile button exactly when
      someone is signed in, Login/Sign Up exactly when no one is, and the Register
      Hospital link exactly for a doctor, so never without the member links. */
  lemma RenderedLinks(pathname: Option<string>, user: Option<PublicUser>)
    requires !IsAuthPage(pathname)
    ensures var v := Render(pathname, user).value;
      && (v.memberLinks <==> user.Some?)
      && (v.authButtons <==> !v.memberLinks)
      && (v.registerHospital <==> user.Some? && user.value.role == Doctor)
      && (v.registerHospital ==> v.memberLinks)
      && (v.initials.Some? <==> user.Some?)
      && (v.initials.Some? ==> |v.initials.value| <= 2)
      && v.home == HomeHref(user)
  {
  }
}
