/** The user preferences store (src/store/slices/userSlice.ts): the signed-in
    user, the subscribed categories and sources, the theme, and the
    loading/error flags of the two preference requests. */
module UserSlice {
  import opened Wrappers
  import opened NewsTypes

  /** `list.indexOf(v)`: the first position holding `v`, or -1. */
  function IndexOf(s: seq<string>, v: string): (r: int)
    ensures -1 <= r < |s|
    ensures r == -1 <==> v !in s
    ensures 0 <= r ==> s[r] == v && v !in s[..r]
  {
    if |s| == 0 then -1
    else if s[0] == v then 0
    else
      var t := IndexOf(s[1..], v);
      if t == -1 then -1
      else
        assert s[..t + 1] == [s[0]] + s[1..][..t];
        t + 1
  }

  /** One toggle: `push` when absent, `splice(index, 1)` of the first
      occurrence when present. */
  function Toggle(s: seq<string>, v: string): (r: seq<string>)
    ensures v !in s ==> r == s + [v]
    ensures v in s ==> |r| == |s| - 1
    ensures forall w :: w in r ==> w in s || w == v
  {
    var i := IndexOf(s, v);
    if i == -1 then s + [v] else s[..i] + s[i + 1..]
  }

  /** No value is listed twice. */
  predicate NoDuplicates(s: seq<string>) {
    forall j, k :: 0 <= j < k < |s| ==> s[j] != s[k]
  }

  /** An absent value is appended at the end; a present one loses its first
      occurrence and the others keep their order. */
  lemma ToggleAppendsOrRemovesFirst(s: seq<string>, v: string)
    ensures v !in s ==> Toggle(s, v) == s + [v]
    ensures v in s ==>
      exists i :: 0 <= i < |s| && s[i] == v && v !in s[..i] && Toggle(s, v) == s[..i] + s[i + 1..]
    ensures v in s ==> multiset(Toggle(s, v)) == multiset(s) - multiset{v}
  {
    if v in s {
      var i := IndexOf(s, v);
      assert s == s[..i] + [v] + s[i + 1..];
      assert multiset(s) == multiset(s[..i]) + multiset{v} + multiset(s[i + 1..]);
    }
  }

  /** On a list without duplicates a toggle flips the membership of the
      toggled value, leaves every other value's membership alone, and keeps
      the list free of duplicates. */
  lemma ToggleFlipsMembership(s: seq<string>, v: string)
    requires NoDuplicates(s)
    ensures v in Toggle(s, v) <==> v !in s
    ensures forall w :: w != v ==> (w in Toggle(s, v) <==> w in s)
    ensures NoDuplicates(Toggle(s, v))
  {
    if v in s {
      RemoveAtFlips(s, v, IndexOf(s, v));
    } else {
      var r := s + [v];
      forall j, k | 0 <= j < k < |r| ensures r[j] != r[k] {
        if k == |s| { assert r[j] == s[j]; }
      }
    }
  }

  /** Removing the only occurrence of `v` from a duplicate-free list. */
  lemma RemoveAtFlips(s: seq<string>, v: string, i: int)
    requires NoDuplicates(s) && 0 <= i < |s| && s[i] == v
    ensures v !in s[..i] + s[i + 1..]
    ensures forall w :: w != v ==> (w in s[..i] + s[i + 1..] <==> w in s)
    ensures NoDuplicates(s[..i] + s[i + 1..])
  {
    var r := s[..i] + s[i + 1..];
    assert |r| == |s| - 1;
    assert forall k :: 0 <= k < |r| ==> r[k] == (if k < i then s[k] else s[k + 1]);
    forall k | 0 <= k < |r| ensures r[k] != v {
      if k < i { assert r[k] == s[k]; } else { assert r[k] == s[k + 1]; }
    }
    forall w | w != v && w in s ensures w in r {
      var k :| 0 <= k < |s| && s[k] == w;
      if k < i { assert r[k] == w; } else { assert r[k - 1] == w; }
    }
  }

  /** Toggling an absent value twice restores the list exactly. */
  lemma ToggleTwiceRestores(s: seq<string>, v: string)
    requires v !in s
    ensures Toggle(Toggle(s, v), v) == s
  {
    var t := s + [v];
    assert t[|s|] == v && t[..|s|] == s;
    assert IndexOf(t, v) == |s|;
  }

  /** The slice state (`UserState`), with `preferences` flattened into three
      fields. */
  class UserStore {
    var user: Option<User>
    var categories: seq<string>
    var sources: seq<string>
    var theme: Theme
    var loading: bool
    var error: Option<string>

    /** `initialState`. */
    constructor ()
      ensures user == None && categories == [] && sources == [] && theme == Light
      ensures !loading && error == None
    {
      user, categories, sources, theme := None, [], [], Light;
      loading, error := false, None;
    }

    /** `toggleCategorySubscription`. */
    method ToggleCategorySubscription(category: string)
      modifies this
      ensures categories == Toggle(old(categories), category)
      ensures sources == old(sources) && theme == old(theme) && user == old(user)
      ensures loading == old(loading) && error == old(error)
    {
      var index := IndexOf(categories, category);
      if index == -1 {
        categories := categories + [category];
      } else {
        categories := categories[..index] + categories[index + 1..];
      }
    }

    /** `toggleSourceSubscription`. */
    method ToggleSourceSubscription(source: string)
      modifies this
      ensures sources == Toggle(old(sources), source)
      ensures categories == old(categories) && theme == old(theme) && user == old(user)
      ensures loading == old(loading) && error == old(error)
    {
      var index := IndexOf(sources, source);
      if index == -1 {
        sources := sources + [source];
      } else {
        sources := sources[..index] + sources[index + 1..];
      }
    }

    /** `setTheme`. */
    method SetTheme(t: Theme)
      modifies this
      ensures theme == t
      ensures categories == old(categories) && sources == old(sources) && user == old(user)
      ensures loading == old(loading) && error == old(error)
    {
      theme := t;
    }

    /** `pending` of `fetchUserPreferences` and of `updateUserPreferences`
        (the two cases are identical). */
    method PreferencesPending()
      modifies this
      ensures loading && error == None
      ensures user == old(user) && categories == old(categories) && sources == old(sources) && theme == old(theme)
    {
      loading := true;
      error := None;
    }

    /** `fulfilled` of either preference request: the returned user is
        installed and its lists replace the local ones; the theme stays. */
    method PreferencesFulfilled(u: User)
      modifies this
      ensures !loading && user == Some(u)
      ensures categories == u.categories && sources == u.sources
      ensures theme == old(theme) && error == old(error)
    {
      loading := false;
      user := Some(u);
      categories := u.categories;
      sources := u.sources;
    }

    /** `rejected` of either preference request. */
    method PreferencesRejected(message: string)
      modifies this
      ensures !loading && error == Some(message)
      ensures user == old(user) && categories == old(categories) && sources == old(sources) && theme == old(theme)
    {
      loading := false;
      error := Some(message);
    }
  }
}
