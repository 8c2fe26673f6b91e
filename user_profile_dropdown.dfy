/**
 * The user menu: the name and initials shown for the cached user, and the
 * logout handler that clears the cached session.
 */
module UserProfileDropdown {
  import opened Wrappers
  import opened Api
  import opened ToastContext
  import opened Browser
  import RouteGuard

  // ---------------------------------------------------------------------------
  // Display name

  datatype UserMetadata = UserMetadata(fullName: Option<string>)

  /** The cached user after `JSON.parse`; `None` when there is no window at all. */
  datatype StoredUser = StoredUser(userMetadata: Option<UserMetadata>)

  const DefaultName := "User"

  /**
   * `user?.user_metadata?.full_name`: a name comes out only when every link of
   * the chain is present, and then it is the stored one.
   */
  function FullNameOf(user: Option<StoredUser>): (r: Option<string>)
    ensures r.Some? <==> user.Some? && user.value.userMetadata.Some? && user.value.userMetadata.value.fullName.Some?
    ensures r.Some? ==> r.value == user.value.userMetadata.value.fullName.value
  {
    if user.Some? && user.value.userMetadata.Some? then user.value.userMetadata.value.fullName else None
  }

  /** `full_name || "User"`: a missing or empty name falls back to "User". */
  function DisplayName(user: Option<StoredUser>): (name: string)
    ensures name != ""
    ensures FullNameOf(user).Some? && FullNameOf(user).value != "" ==> name == FullNameOf(user).value
  {
    match FullNameOf(user)
    case Some(n) => if n != "" then n else DefaultName
    case None => DefaultName
  }

  // ---------------------------------------------------------------------------
  // Splitting and joining on single spaces, as JavaScript's `split(" ")` and `join(" ")`

  /** The pieces between spaces, empty pieces included; there is always at least one. */
  function Split(s: string): (words: seq<string>)
    ensures |words| >= 1
    ensures forall i :: 0 <= i < |words| ==> ' ' !in words[i]
  {
    if s == [] then [""]
    else
      var rest := Split(s[1..]);
      if s[0] == ' ' then [""] + rest
      else [[s[0]] + rest[0]] + rest[1..]
  }

  function Join(words: seq<string>): string
  {
    if words == [] then ""
    else if |words| == 1 then words[0]
    else words[0] + " " + Join(words[1..])
  }

  /** Joining the pieces back with single spaces gives the original string. */
  lemma {:induction false} JoinSplit(s: string)
    ensures Join(Split(s)) == s
  {
    if s != [] {
      var rest := Split(s[1..]);
      JoinSplit(s[1..]);
      if s[0] == ' ' {
        assert ([""] + rest)[1..] == rest;
        assert s == " " + s[1..];
      } else if |rest| == 1 {
        assert s == [s[0]] + s[1..];
      } else {
        var words := Split(s);
        assert words[1..] == rest[1..];
        assert Join(rest) == rest[0] + " " + Join(rest[1..]);
        assert s == [s[0]] + s[1..];
      }
    }
  }

  /** A word without spaces glues onto the first piece of what follows it. */
  lemma {:induction false} SplitAfterWord(w: string, t: string)
    requires ' ' !in w
    ensures Split(w + t) == [w + Split(t)[0]] + Split(t)[1..]
  {
    if w != [] {
      assert (w + t)[0] == w[0] && (w + t)[1..] == w[1..] + t;
      assert w[0] != ' ' && ' ' !in w[1..];
      SplitAfterWord(w[1..], t);
      var st := Split(t);
      var rest := Split(w[1..] + t);
      assert rest[0] == w[1..] + st[0] && rest[1..] == st[1..];
      assert Split(w + t) == [[w[0]] + rest[0]] + rest[1..];
      assert [w[0]] + (w[1..] + st[0]) == w + st[0];
    } else {
      var st := Split(t);
      assert w + t == t && w + st[0] == st[0];
      assert [st[0]] + st[1..] == st;
    }
  }

  /** Splitting words joined by single spaces gives the words back, when none has a space. */
  lemma {:induction false} SplitJoin(words: seq<string>)
    requires |words| >= 1
    requires forall i :: 0 <= i < |words| ==> ' ' !in words[i]
    ensures Split(Join(words)) == words
  {
    if |words| == 1 {
      SplitAfterWord(words[0], "");
      assert words[0] + "" == words[0];
    } else {
      var tail := Join(words[1..]);
      SplitJoin(words[1..]);
      assert words[0] + " " + tail == words[0] + (" " + tail);
      SplitAfterWord(words[0], " " + tail);
      assert (" " + tail)[0] == ' ' && (" " + tail)[1..] == tail;
      var st := Split(" " + tail);
      assert st == [""] + Split(tail);
      assert st[0] == "" && st[1..] == words[1..];
      assert words[0] + "" == words[0];
      assert words == [words[0]] + words[1..];
    }
  }

  // ---------------------------------------------------------------------------
  // Initials

  /** `.map(n => n[0]).join("")`: an empty piece has no first character and adds nothing. */
  function FirstChars(words: seq<string>): (r: string)
    ensures |r| <= |words|
  {
    if words == [] then ""
    else (if words[0] == "" then "" else [words[0][0]]) + FirstChars(words[1..])
  }

  /**
   * The reference reading of "the first letter of every word": scanning left
   * to right, every non-space character that starts the string or follows a
   * space. `atWordStart` says whether the previous character was a space.
   */
  function WordStarts(s: string, atWordStart: bool): string
  {
    if s == [] then ""
    else if s[0] == ' ' then WordStarts(s[1..], true)
    else (if atWordStart then [s[0]] else "") + WordStarts(s[1..], false)
  }

  /** ASCII upper-casing of one character; every other character is left alone. */
  function UpperChar(c: char): char
  {
    if 'a' <= c <= 'z' then (c as int - 32) as char else c
  }

  function ToUpper(s: string): (r: string)
    ensures |r| == |s|
    ensures forall i :: 0 <= i < |s| ==> r[i] == UpperChar(s[i])
  {
    if s == [] then "" else [UpperChar(s[0])] + ToUpper(s[1..])
  }

  /** `slice(0, n)`. */
  function Take(s: string, n: nat): string
  {
    if |s| <= n then s else s[..n]
  }

  /** The first characters of the split pieces are exactly the word starts of the string. */
  lemma {:induction false} FirstCharsOfSplit(s: string)
    ensures FirstChars(Split(s)) == WordStarts(s, true)
    ensures FirstChars(Split(s)[1..]) == WordStarts(s, false)
  {
    if s != [] {
      FirstCharsOfSplit(s[1..]);
      var rest := Split(s[1..]);
      var words := Split(s);
      if s[0] == ' ' {
        assert words == [""] + rest && words[1..] == rest;
      } else {
        assert words[0] == [s[0]] + rest[0] && words[1..] == rest[1..];
      }
    }
  }

  /** The avatar text: upper-cased word initials, at most two. */
  function Initials(name: string): (r: string)
    ensures |r| <= 2
    ensures r == Take(ToUpper(WordStarts(name, true)), 2)
  {
    FirstCharsOfSplit(name);
    Take(ToUpper(FirstChars(Split(name))), 2)
  }

  /** A user without a usable name is shown as "User", with the initial "U". */
  lemma DefaultDisplayName(user: Option<StoredUser>)
    requires FullNameOf(user) == None || FullNameOf(user) == Some("")
    ensures DisplayName(user) == "User"
    ensures Initials(DisplayName(user)) == "U"
  {
  }

  /** A name of two or more words keeps the initials of the first two words, in order. */
  lemma InitialsOfWords(words: seq<string>)
    requires |words| >= 2
    requires forall i :: 0 <= i < |words| ==> words[i] != "" && ' ' !in words[i]
    ensures Initials(Join(words)) == [UpperChar(words[0][0]), UpperChar(words[1][0])]
  {
    SplitJoin(words);
    var firsts := FirstChars(words);
    assert firsts == [words[0][0]] + FirstChars(words[1..]);
    assert FirstChars(words[1..]) == [words[1][0]] + FirstChars(words[2..]);
    assert firsts[0] == words[0][0] && firsts[1] == words[1][0];
    var up := ToUpper(firsts);
    assert Take(up, 2) == [up[0], up[1]];
    assert Initials(Join(words)) == Take(ToUpper(FirstChars(Split(Join(words)))), 2);
  }

  /** A one-word name shows that word's upper-cased first letter. */
  lemma InitialOfOneWord(w: string)
    requires w != "" && ' ' !in w
    ensures Initials(w) == [UpperChar(w[0])]
  {
    SplitJoin([w]);
    FirstCharsOfSplit(w);
    assert FirstChars([w]) == [w[0]];
  }

  /** A name made only of spaces (still truthy, so shown as it is) has no initials at all. */
  lemma {:induction false} BlankNameHasNoInitials(name: string, atWordStart: bool)
    requires forall i :: 0 <= i < |name| ==> name[i] == ' '
    ensures WordStarts(name, atWordStart) == ""
    ensures Initials(name) == ""
  {
    if name != [] {
      BlankNameHasNoInitials(name[1..], true);
    }
  }

  /** Where the string continues after a prefix, the word starts of the two parts add up. */
  lemma {:induction false} WordStartsAppend(a: string, b: string, atWordStart: bool)
    ensures WordStarts(a + b, atWordStart)
      == WordStarts(a, atWordStart) + WordStarts(b, if a == [] then atWordStart else a[|a| - 1] == ' ')
  {
    if a == [] {
      assert a + b == b;
    } else {
      assert (a + b)[0] == a[0] && (a + b)[1..] == a[1..] + b;
      WordStartsAppend(a[1..], b, a[0] == ' ');
    }
  }

  /** Leading and repeated spaces give empty pieces, which add no initial. */
  lemma SpacesAddNoInitials(a: string, b: string)
    ensures Initials(" " + b) == Initials(b)
    ensures Initials(a + "  " + b) == Initials(a + " " + b)
  {
    WordStartsAppend(a, "  " + b, true);
    WordStartsAppend(a, " " + b, true);
    assert a + "  " + b == a + ("  " + b);
    assert a + " " + b == a + (" " + b);
    assert ("  " + b)[1..] == " " + b;
    assert (" " + b)[1..] == b;
  }

  // ---------------------------------------------------------------------------
  // Logout

  /** The keys of the cached session. */
  const SessionKeys: set<string> := {"user", "access_token", "refresh_token"}

  const LoggedOutToast := ToastProps(Success, "Success", Some("Successfully logged out"), None)
  const LogoutFailedToast := ToastProps(Error, "Error", Some("Failed to logout"), None)

  /**
   * What the logout handler does, given how the remote logout call ended. It
   * never writes and removes nothing but session keys; it navigates, and
   * reports success, exactly when the call succeeded.
   */
  function LogoutEffect(logout: Outcome<()>): (e: Effect)
    ensures e.writes == map[] && e.removals <= SessionKeys
    ensures e.navigation.Some? <==> logout.Succeeded?
    ensures e.toast.kind == Success <==> logout.Succeeded?
    ensures e.removals != {} ==> e.navigation == Some(RouteGuard.SignInPath)
  {
    match logout
    case Succeeded(_) => Effect(SessionKeys, map[], LoggedOutToast, Some(RouteGuard.SignInPath))
    case Failed(_) => Effect({}, map[], LogoutFailedToast, None)
  }

  /** A successful logout removes exactly the session keys and goes to the sign-in page. */
  lemma LogoutClearsSession(items: Storage)
    ensures Apply(items, LogoutEffect(Succeeded(()))) == items - SessionKeys
    ensures forall k :: k in items && k !in SessionKeys ==> k in Apply(items, LogoutEffect(Succeeded(())))
    ensures "user" !in Apply(items, LogoutEffect(Succeeded(())))
    ensures "access_token" !in Apply(items, LogoutEffect(Succeeded(())))
    ensures "refresh_token" !in Apply(items, LogoutEffect(Succeeded(())))
    ensures LogoutEffect(Succeeded(())).navigation == Some("/auth/signin")
  {
  }

  /** A failed logout leaves storage as it was, reports the failure and stays on the page. */
  lemma LogoutFailureKeepsStorage(items: Storage, response: Option<ErrorResponse>)
    ensures Apply(items, LogoutEffect(Failed(response))) == items
    ensures LogoutEffect(Failed(response)).navigation == None
    ensures LogoutEffect(Failed(response)).toast.kind == Error
  {
  }

  /** The component's state and the services it uses. */
  class UserProfileDropdown {
    var isLoading: bool
    const storage: LocalStorage
    const router: Router
    const toaster: ToastProvider

    constructor (storage: LocalStorage, router: Router, toaster: ToastProvider)
      ensures !isLoading
      ensures this.storage == storage && this.router == router && this.toaster == toaster
    {
      isLoading := false;
      this.storage := storage;
      this.router := router;
      this.toaster := toaster;
    }

    /** The click handler of the logout item; `logout` is how `auth.logout()` ended. */
    method HandleLogout(logout: Outcome<()>, toastId: string)
      modifies this`isLoading, storage, router, toaster
      ensures !isLoading
      ensures storage.items == Apply(old(storage.items), LogoutEffect(logout))
      ensures toaster.toasts == old(toaster.toasts) + [Toast(toastId, LogoutEffect(logout).toast)]
      ensures router.history == old(router.history) + Pushed(LogoutEffect(logout))
    {
      isLoading := true;
      match logout {
        case Succeeded(_) =>
          storage.RemoveItem("user");
          storage.RemoveItem("access_token");
          storage.RemoveItem("refresh_token");
          toaster.ShowToast(LoggedOutToast, toastId);
          router.Push(RouteGuard.SignInPath);
        case Failed(_) =>
          toaster.ShowToast(LogoutFailedToast, toastId);
      }
      isLoading := false;
    }
  }
}
