/**
 * The sidebar (components/sidebar/index.jsx): the case-insensitive search
 * filter over the loaded chats, and the light/dark theme switch whose value
 * is mirrored into local storage, the `data-theme` attribute and the `dark`
 * class of the `html` element.
 */
module Sidebar {
  import opened Js
  import opened ChatData

  // ---------------------------------------------------------------------
  // Chat search
  // ---------------------------------------------------------------------

  /** `user.toLowerCase().includes(query.toLowerCase())` */
  predicate MatchesQuery(user: string, query: string) {
    Includes(ToLower(user), ToLower(query))
  }

  /**
   * The filter callback: `users.find(matches)` is truthy, that is, the
   * first participant matching the query exists and is not the empty string.
   */
  function IsListed(users: seq<string>, query: string): (b: bool)
    ensures b <==>
      exists i :: 0 <= i < |users| && MatchesQuery(users[i], query) && users[i] != ""
        && forall j :: 0 <= j < i ==> !MatchesQuery(users[j], query)
  {
    var found := Find(users, (u: string) => MatchesQuery(u, query));
    found.Some? && Truthy(found.value)
  }

  /** `docs.filter(chat => IsListed(chat.users, query))` */
  function FilterChats(docs: seq<ChatDoc>, query: string): (r: seq<ChatDoc>)
    ensures |r| <= |docs|
    ensures forall d :: d in r ==> d in docs && IsListed(d.users, query)
    ensures forall d :: d in docs && IsListed(d.users, query) ==> d in r
  {
    if docs == [] then []
    else if IsListed(docs[0].users, query) then [docs[0]] + FilterChats(docs[1..], query)
    else FilterChats(docs[1..], query)
  }

  /** Each listed chat appears as often as in the snapshot, and the others not at all. */
  lemma {:induction false} FilterKeepsMultiplicity(docs: seq<ChatDoc>, query: string)
    ensures var r := FilterChats(docs, query);
      forall d :: multiset(r)[d] == if IsListed(d.users, query) then multiset(docs)[d] else 0
  {
    if docs != [] {
      FilterKeepsMultiplicity(docs[1..], query);
      assert docs == [docs[0]] + docs[1..];
      assert multiset(docs) == multiset([docs[0]]) + multiset(docs[1..]);
    }
  }

  /** `a` is obtained from `b` by deleting elements: same order, nothing added. */
  ghost predicate IsSubsequence<T>(a: seq<T>, b: seq<T>)
    decreases |b|
  {
    if a == [] then true
    else if b == [] then false
    else if a[0] == b[0] then IsSubsequence(a[1..], b[1..])
    else IsSubsequence(a, b[1..])
  }

  /**
   * When every participant email is non-empty, a chat is listed exactly
   * when some participant's lower-cased email contains the lower-cased query.
   */
  lemma IsListedIffSomeParticipantMatches(users: seq<string>, query: string)
    requires forall i :: 0 <= i < |users| ==> users[i] != ""
    ensures IsListed(users, query) <==> exists i :: 0 <= i < |users| && MatchesQuery(users[i], query)
  {
    var p := (u: string) => MatchesQuery(u, query);
    var k := FindIndex(users, p);
    if exists i :: 0 <= i < |users| && MatchesQuery(users[i], query) {
      assert k < |users| && users[k] != "";
    }
  }

  /** The listed chats are the loaded ones in their order, with some left out and none added. */
  lemma {:induction false} FilterKeepsOrder(docs: seq<ChatDoc>, query: string)
    ensures IsSubsequence(FilterChats(docs, query), docs)
  {
    if docs != [] {
      FilterKeepsOrder(docs[1..], query);
      var rest := FilterChats(docs[1..], query);
      if IsListed(docs[0].users, query) {
        assert ([docs[0]] + rest)[1..] == rest;
      } else {
        // docs[0] is not listed, so it cannot be the head of what is.
        assert rest != [] ==> rest[0] in rest && rest[0] != docs[0];
      }
    }
  }

  /**
   * With an empty query every chat whose first participant has a non-empty
   * email is listed, since the empty string is contained in every string.
   */
  lemma {:induction false} EmptyQueryListsAll(docs: seq<ChatDoc>)
    requires forall d :: d in docs ==> |d.users| > 0 && d.users[0] != ""
    ensures FilterChats(docs, "") == docs
  {
    if docs != [] {
      IncludesEmpty(ToLower(docs[0].users[0]));
      assert ToLower("") == "";
      EmptyQueryListsAll(docs[1..]);
    }
  }

  /** Changing only the letter case of the query changes no decision. */
  lemma {:induction false} FilterIgnoresQueryCase(docs: seq<ChatDoc>, q1: string, q2: string)
    requires ToLower(q1) == ToLower(q2)
    ensures FilterChats(docs, q1) == FilterChats(docs, q2)
  {
    if docs != [] {
      var users := docs[0].users;
      FindIndexAgrees(users, (u: string) => MatchesQuery(u, q1), users, (u: string) => MatchesQuery(u, q2));
      FilterIgnoresQueryCase(docs[1..], q1, q2);
    }
  }

  /** Changing only the letter case of the participants' emails does not change whether a chat is listed. */
  lemma ListedIgnoresParticipantCase(users1: seq<string>, users2: seq<string>, query: string)
    requires |users1| == |users2|
    requires forall i :: 0 <= i < |users1| ==> ToLower(users1[i]) == ToLower(users2[i])
    ensures IsListed(users1, query) == IsListed(users2, query)
  {
    var p := (u: string) => MatchesQuery(u, query);
    FindIndexAgrees(users1, p, users2, p);
    var k := FindIndex(users1, p);
    if k < |users1| {
      assert |users1[k]| == |ToLower(users1[k])| == |users2[k]|;
    }
  }

  // ---------------------------------------------------------------------
  // Theme
  // ---------------------------------------------------------------------

  const Light := "light"
  const Dark := "dark"

  /** The theme `changeTheme` switches to: light becomes dark, anything else becomes light. */
  function NextTheme(theme: string): (r: string)
    ensures r == Dark <==> theme == Light
    ensures r == Light || r == Dark
  {
    if theme == Light then Dark else Light
  }

  /** Switching twice from light or dark comes back to where it started. */
  lemma NextThemeTwice(theme: string)
    requires theme == Light || theme == Dark
    ensures NextTheme(NextTheme(theme)) == theme
  {
  }

  /**
   * The theme state of the sidebar and the places it is mirrored to:
   * `localStorage["theme"]`, the `data-theme` attribute and the `dark`
   * class of the `html` element.
   */
  class Theme {
    var theme: string
    var stored: Option<string>
    var dataTheme: Option<string>
    var darkClass: bool

    /** The state value is what the page shows: attribute set to it, `dark` class exactly for dark. */
    predicate Mirrored()
      reads this
    {
      dataTheme == Some(theme) && (darkClass <==> theme == Dark)
    }

    /** A page load: the state starts light, whatever an earlier visit stored. */
    constructor (stored: Option<string>, dataTheme: Option<string>, darkClass: bool)
      ensures theme == Light
      ensures this.stored == stored && this.dataTheme == dataTheme && this.darkClass == darkClass
    {
      theme := Light;
      this.stored := stored;
      this.dataTheme := dataTheme;
      this.darkClass := darkClass;
    }

    /** `updateTheme`, run once on mount: adopt the stored theme if there is one. */
    method UpdateTheme()
      modifies this`theme, this`dataTheme, this`darkClass
      ensures theme == (if old(stored).Some? then old(stored).value else old(theme))
      ensures dataTheme == Some(theme)
      ensures darkClass == (old(darkClass) || theme == Dark)
    {
      var localTheme := if stored.Some? then stored.value else theme;
      theme := localTheme;
      dataTheme := Some(localTheme);
      if localTheme == Dark {
        darkClass := true;
      }
    }

    /** `changeTheme`: switch, then mirror the new theme everywhere and store it. */
    method ChangeTheme()
      modifies this
      ensures theme == NextTheme(old(theme))
      ensures Mirrored() && stored == Some(theme)
    {
      var newTheme := NextTheme(theme);
      theme := newTheme;
      dataTheme := Some(newTheme);
      if newTheme == Dark {
        darkClass := true;
      } else {
        darkClass := false;
      }
      stored := Some(newTheme);
    }
  }

  /**
   * On a fresh page (no `dark` class yet) `updateTheme` leaves the page
   * mirroring the adopted theme; with a stored theme, the state equals it.
   */
  method MountTheme(stored: Option<string>) returns (t: Theme)
    ensures fresh(t) && t.Mirrored()
    ensures t.theme == (if stored.Some? then stored.value else Light)
    ensures t.stored == stored
  {
    t := new Theme(stored, None, false);
    t.UpdateTheme();
  }

  /**
   * `updateTheme` never removes the `dark` class: on a page that has it,
   * adopting any theme but dark leaves the class in place, out of step with
   * the theme, whatever `data-theme` was before.
   */
  method UpdateThemeKeepsDarkClass(stored: Option<string>, dataTheme: Option<string>) returns (t: Theme)
    requires stored != Some(Dark)
    ensures t.theme == (if stored.Some? then stored.value else Light)
    ensures t.darkClass && t.dataTheme == Some(t.theme) && !t.Mirrored()
  {
    t := new Theme(stored, dataTheme, true);
    t.UpdateTheme();
  }

  /** Two switches from a stored light or dark theme come back to it, mirrored and stored. */
  method ToggleTwice(stored: string) returns (t: Theme)
    requires stored == Light || stored == Dark
    ensures t.theme == stored && t.stored == Some(stored) && t.Mirrored()
  {
    t := MountTheme(Some(stored));
    t.ChangeTheme();
    t.ChangeTheme();
    NextThemeTwice(stored);
  }
}
