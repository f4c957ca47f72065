/** The signed-in user's menu in the header: the name shown, the initials in the
    avatar, the plan label, and the dropdown that closes before navigating. */
module UserProfile {
  import opened Wrappers
  import opened Strings

  /** The parts of the auth user the menu reads: `user_metadata.name` and `email`. */
  datatype User = User(metadataName: Option<string>, email: Option<string>)

  /** A JavaScript string is truthy when it is non-empty. */
  predicate Truthy(s: Option<string>)
  {
    s.Some? && s.value != ""
  }

  /** `getUserDisplayName()`. */
  function DisplayName(user: Option<User>): (name: string)
    ensures user.None? ==> name == "User"
  {
    if user.Some? && Truthy(user.value.metadataName) then user.value.metadataName.value
    else if user.Some? && Truthy(user.value.email) then Split(user.value.email.value, '@')[0]
    else "User"
  }

  /** The name shown is the metadata name when there is one. */
  lemma DisplayNameFromMetadata(user: User)
    requires Truthy(user.metadataName)
    ensures DisplayName(Some(user)) == user.metadataName.value
  {
  }

  /** Without a metadata name, the name shown is the part of the email before its
      first '@', or the whole email when it has none. */
  lemma {:induction false} DisplayNameFromEmail(user: User, local: string, domain: string)
    requires !Truthy(user.metadataName) && '@' !in local
    ensures user.email == Some(local + "@" + domain) ==> DisplayName(Some(user)) == local
    ensures user.email == Some(local) && local != "" ==> DisplayName(Some(user)) == local
  {
    if user.email == Some(local + "@" + domain) {
      SplitAtSeparator(local, '@', domain);
    }
    if user.email == Some(local) {
      SplitWithoutSeparator(local, '@');
    }
  }

  /** With neither a metadata name nor an email, or no user, the name is "User". */
  lemma DisplayNameFallback(user: Option<User>)
    requires user.None? || (!Truthy(user.value.metadataName) && !Truthy(user.value.email))
    ensures DisplayName(user) == "User"
  {
  }

  /** `words.map(n => n[0]).join('')`: an empty word's `n[0]` is `undefined`,
      which `join` renders as nothing. */
  function FirstChars(words: seq<string>): (r: string)
    ensures |r| <= |words|
  {
    if words == [] then ""
    else (if words[0] == "" then "" else [words[0][0]]) + FirstChars(words[1..])
  }

  /** `name.split(' ').map(n => n[0]).join('').toUpperCase().slice(0, 2)`. */
  function Initials(name: string): (r: string)
    ensures |r| <= 2
  {
    var all := ToUpper(FirstChars(Split(name, ' ')));
    if |all| <= 2 then all else all[..2]
  }

  /** A one-word name gives its first letter, upper-cased, alone. */
  lemma InitialsOfOneWord(word: string)
    requires word != "" && ' ' !in word
    ensures Initials(word) == [UpperChar(word[0])]
  {
    SplitWithoutSeparator(word, ' ');
  }

  /** "First Last" gives the two first letters, upper-cased. */
  lemma InitialsOfTwoWords(first: string, last: string)
    requires first != "" && last != "" && ' ' !in first && ' ' !in last
    ensures Initials(first + " " + last) == [UpperChar(first[0]), UpperChar(last[0])]
  {
    SplitAtSeparator(first, ' ', last);
    SplitWithoutSeparator(last, ' ');
    var words := Split(first + " " + last, ' ');
    assert words == [first, last];
    assert words[1..][1..] == [];
    assert FirstChars(words) == [first[0], last[0]];
  }

  /** The first characters of two word lists put together are those of the
      first list followed by those of the second. */
  lemma {:induction false} FirstCharsAppend(a: seq<string>, b: seq<string>)
    ensures FirstChars(a + b) == FirstChars(a) + FirstChars(b)
    decreases |a|
  {
    if a == [] {
      assert a + b == b;
    } else {
      assert (a + b)[1..] == a[1..] + b;
      FirstCharsAppend(a[1..], b);
    }
  }

  /** Words that are all non-empty give exactly one character each: the i-th
      character is the i-th word's first. */
  lemma {:induction false} FirstCharsOfWords(words: seq<string>)
    requires forall i :: 0 <= i < |words| ==> words[i] != ""
    ensures |FirstChars(words)| == |words|
    ensures forall i :: 0 <= i < |words| ==> FirstChars(words)[i] == words[i][0]
    decreases |words|
  {
    if words != [] {
      FirstCharsOfWords(words[1..]);
    }
  }

  /** An empty word, as a leading, trailing or doubled space leaves, adds
      nothing wherever it stands. */
  lemma InitialsSkipEmptyWords(a: seq<string>, b: seq<string>)
    ensures FirstChars(a + [""] + b) == FirstChars(a + b)
  {
    FirstCharsAppend(a + [""], b);
    FirstCharsAppend(a, [""]);
    FirstCharsAppend(a, b);
    assert [""][1..] == [];
  }

  /** Two leading words without spaces split off as the first two parts. */
  lemma SplitTwoWords(first: string, second: string, rest: string)
    requires ' ' !in first && ' ' !in second
    ensures Split(first + " " + second + " " + rest, ' ') == [first, second] + Split(rest, ' ')
  {
    var tail := second + " " + rest;
    assert first + " " + second + " " + rest == first + [' '] + tail;
    SplitAtSeparator(first, ' ', tail);
    SplitAtSeparator(second, ' ', rest);
  }

  /** Two non-empty leading words give the first two characters. */
  lemma FirstCharsOfTwoLeading(first: string, second: string, more: seq<string>)
    requires first != "" && second != ""
    ensures var r := FirstChars([first, second] + more);
      |r| >= 2 && r[0] == first[0] && r[1] == second[0]
  {
    FirstCharsAppend([first, second], more);
    FirstCharsOfWords([first, second]);
  }

  /** A name of three or more words gives the first letters of its first two
      words, upper-cased; the rest is cut off by `slice(0, 2)`. */
  lemma InitialsOfManyWords(first: string, second: string, rest: string)
    requires first != "" && second != "" && ' ' !in first && ' ' !in second
    ensures Initials(first + " " + second + " " + rest) == [UpperChar(first[0]), UpperChar(second[0])]
  {
    var words := Split(first + " " + second + " " + rest, ' ');
    SplitTwoWords(first, second, rest);
    FirstCharsOfTwoLeading(first, second, Split(rest, ' '));
    var all := ToUpper(FirstChars(words));
    assert all[..2] == [UpperChar(first[0]), UpperChar(second[0])];
  }

  /** `getSubscriptionType()`: every user is on the free plan for now. */
  function SubscriptionType(user: User): (plan: string)
    ensures plan == "Free Plan"
  {
    "Free Plan"
  }

  /** What the button shows. */
  datatype Badge = Badge(initials: string, displayName: string, plan: string)

  /** `if (!user) return null;` and otherwise the button's contents. */
  function Render(user: Option<User>): (r: Option<Badge>)
    ensures r.None? <==> user.None?
    ensures r.Some? ==> r.value == Badge(Initials(DisplayName(user)), DisplayName(user), "Free Plan")
    ensures r.Some? ==> |r.value.initials| <= 2
  {
    if user.None? then None
    else
      var name := DisplayName(user);
      Some(Badge(Initials(name), name, SubscriptionType(user.value)))
  }

  /** The dropdown. */
  class ProfileMenu {
    var isOpen: bool

    constructor ()
      ensures !isOpen
    {
      isOpen := false;
    }

    /** The avatar button: opens or closes the dropdown. */
    method ToggleOpen()
      modifies this
      ensures isOpen == !old(isOpen)
    {
      isOpen := !isOpen;
    }

    /** `handleClickOutside`: a mousedown outside the menu closes it. */
    method MouseDown(insideMenu: bool)
      modifies this
      ensures isOpen == (old(isOpen) && insideMenu)
    {
      if !insideMenu {
        isOpen := false;
      }
    }

    /** `handleProfileClick`: closes, then navigates to the returned path. */
    method HandleProfileClick() returns (navigateTo: string)
      modifies this
      ensures !isOpen && navigateTo == "/profile"
    {
      isOpen := false;
      navigateTo := "/profile";
    }

    /** `handleSubscriptionClick`: closes, then navigates to the returned path. */
    method HandleSubscriptionClick() returns (navigateTo: string)
      modifies this
      ensures !isOpen && navigateTo == "/subscribe"
    {
      isOpen := false;
      navigateTo := "/subscribe";
    }

    /** `handleSignOut`: after the (foreign) sign-out, the menu closes. */
    method HandleSignOut()
      modifies this
      ensures !isOpen
    {
      isOpen := false;
    }
  }
}
