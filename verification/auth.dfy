/**
 * The authentication context: the role predicates, the store slug derived
 * from the store name at sign-up, and the session state that the auth
 * listener, the initial session lookup, the user-data fetch and sign-out
 * update.
 *
 * The Supabase calls are parameters: an auth event arrives with its
 * session, and the three table reads of the user-data fetch arrive as
 * their (possibly `null`) rows.
 */
module Auth {
  import opened Optional
  import JsText

  // ------------------------------------------------------------------ roles

  /** `AppRole`: `"user"`, `"admin"` or `"admin_global"`. */
  datatype AppRole = UserRole | AdminRole | AdminGlobalRole

  /** `hasRole`: the role list contains the role (a scan, as `includes` does). */
  function HasRole(roles: seq<AppRole>, role: AppRole): (held: bool)
    ensures held <==> role in roles
  {
    if roles == [] then false
    else roles[0] == role || HasRole(roles[1..], role)
  }

  /** `isAdmin`: an administrator of either kind. */
  function IsAdmin(roles: seq<AppRole>): (admin: bool)
    ensures admin <==> AdminRole in roles || AdminGlobalRole in roles
  {
    HasRole(roles, AdminRole) || HasRole(roles, AdminGlobalRole)
  }

  /** `isAdminGlobal`: a global administrator, who is therefore also an administrator. */
  function IsAdminGlobal(roles: seq<AppRole>): (global: bool)
    ensures global <==> AdminGlobalRole in roles
    ensures global ==> IsAdmin(roles)
  {
    HasRole(roles, AdminGlobalRole)
  }

  // ------------------------------------------------------------- store slug

  /** The characters `[a-z0-9-]` that survive the second replacement. */
  predicate SlugChar(c: char) {
    'a' <= c <= 'z' || '0' <= c <= '9' || c == '-'
  }

  predicate NoWhiteSpace(s: string) {
    forall k :: 0 <= k < |s| ==> !JsText.IsWhiteSpace(s[k])
  }

  predicate SlugOnly(s: string) {
    forall k :: 0 <= k < |s| ==> SlugChar(s[k])
  }

  /**
   * `replace(/\s+/g, "-")`: every maximal run of whitespace becomes one `-`,
   * written out at the run's last character.
   */
  function CollapseWhiteSpace(s: string): (r: string)
    ensures NoWhiteSpace(r)
  {
    if s == [] then []
    else if !JsText.IsWhiteSpace(s[0]) then [s[0]] + CollapseWhiteSpace(s[1..])
    else if |s| > 1 && JsText.IsWhiteSpace(s[1]) then CollapseWhiteSpace(s[1..])
    else "-" + CollapseWhiteSpace(s[1..])
  }

  /** `replace(/[^a-z0-9-]/g, "")`: keeps exactly the slug characters, in order. */
  function KeepSlugChars(s: string): (r: string)
    ensures SlugOnly(r) && |r| <= |s|
    ensures forall c :: c in r <==> c in s && SlugChar(c)
  {
    if s == [] then []
    else if SlugChar(s[0]) then [s[0]] + KeepSlugChars(s[1..])
    else
      assert s == [s[0]] + s[1..];
      KeepSlugChars(s[1..])
  }

  /** The `store_slug` sent with sign-up: lower-case, collapse whitespace runs, drop the rest. */
  function StoreSlug(storeName: string): (slug: string)
    ensures SlugOnly(slug)
  {
    KeepSlugChars(CollapseWhiteSpace(JsText.ToLower(storeName)))
  }

  /** A run of whitespace followed by a non-whitespace start collapses to one `-`. */
  lemma {:induction false} CollapseRun(w: string, b: string)
    requires w != [] && forall k :: 0 <= k < |w| ==> JsText.IsWhiteSpace(w[k])
    requires b == [] || !JsText.IsWhiteSpace(b[0])
    ensures CollapseWhiteSpace(w + b) == "-" + CollapseWhiteSpace(b)
    decreases |w|
  {
    assert (w + b)[0] == w[0] && (w + b)[1..] == w[1..] + b;
    if |w| == 1 {
      assert w[1..] + b == b;
    } else {
      assert (w + b)[1] == w[1];
      CollapseRun(w[1..], b);
    }
  }

  /** Collapsing distributes over a split that does not cut a whitespace run. */
  lemma {:induction false} CollapseAppend(a: string, b: string)
    requires a == [] || !JsText.IsWhiteSpace(a[|a| - 1])
    ensures CollapseWhiteSpace(a + b) == CollapseWhiteSpace(a) + CollapseWhiteSpace(b)
    decreases |a|
  {
    if a == [] {
      assert a + b == b;
    } else {
      assert (a + b)[0] == a[0] && (a + b)[1..] == a[1..] + b;
      if |a| > 1 {
        assert (a + b)[1] == a[1];
        assert a[1..][|a[1..]| - 1] == a[|a| - 1];
      }
      CollapseAppend(a[1..], b);
    }
  }

  /** Text without whitespace is left alone by the collapse. */
  lemma {:induction false} CollapseIdentity(s: string)
    requires NoWhiteSpace(s)
    ensures CollapseWhiteSpace(s) == s
    decreases |s|
  {
    if s != [] {
      CollapseIdentity(s[1..]);
    }
  }

  /** Text made only of slug characters is left alone by the filter. */
  lemma {:induction false} KeepIdentity(s: string)
    requires SlugOnly(s)
    ensures KeepSlugChars(s) == s
    decreases |s|
  {
    if s != [] {
      KeepIdentity(s[1..]);
    }
  }

  /** Deriving a slug from a slug changes nothing. */
  lemma StoreSlugIdempotent(storeName: string)
    ensures StoreSlug(StoreSlug(storeName)) == StoreSlug(storeName)
  {
    var slug := StoreSlug(storeName);
    assert JsText.ToLower(slug) == slug;
    assert NoWhiteSpace(slug);
    CollapseIdentity(slug);
    KeepIdentity(slug);
  }

  /** Slug characters are neither upper-case letters nor whitespace. */
  lemma SlugTextIsFixed(s: string)
    requires SlugOnly(s)
    ensures JsText.ToLower(s) == s && NoWhiteSpace(s)
  {
  }

  /** A whitespace run between two parts that do not touch it with whitespace collapses to one `-`. */
  lemma CollapseBetween(a: string, w: string, b: string)
    requires a != [] && !JsText.IsWhiteSpace(a[|a| - 1])
    requires w != [] && forall k :: 0 <= k < |w| ==> JsText.IsWhiteSpace(w[k])
    requires b == [] || !JsText.IsWhiteSpace(b[0])
    ensures CollapseWhiteSpace(a + w + b) == CollapseWhiteSpace(a) + "-" + CollapseWhiteSpace(b)
  {
    calc {
      CollapseWhiteSpace(a + w + b);
      { assert a + w + b == a + (w + b); }
      CollapseWhiteSpace(a + (w + b));
      { CollapseAppend(a, w + b); }
      CollapseWhiteSpace(a) + CollapseWhiteSpace(w + b);
      { CollapseRun(w, b); }
      CollapseWhiteSpace(a) + ("-" + CollapseWhiteSpace(b));
    }
  }

  /** Between two slug words, any run of whitespace becomes a single `-`. */
  lemma SlugOfSpacedWords(a: string, w: string, b: string)
    requires SlugOnly(a) && SlugOnly(b) && a != [] && b != []
    requires w != [] && forall k :: 0 <= k < |w| ==> JsText.IsWhiteSpace(w[k])
    ensures StoreSlug(a + w + b) == a + "-" + b
  {
    var s, t := a + w + b, a + "-" + b;
    calc {
      StoreSlug(s);
      KeepSlugChars(CollapseWhiteSpace(JsText.ToLower(s)));
      { SlugTextIsFixed(a); SlugTextIsFixed(b); assert JsText.ToLower(s) == s; }
      KeepSlugChars(CollapseWhiteSpace(s));
      { SlugTextIsFixed(a); SlugTextIsFixed(b); CollapseBetween(a, w, b); CollapseIdentity(a); CollapseIdentity(b); }
      KeepSlugChars(t);
      { assert SlugOnly(t); KeepIdentity(t); }
      t;
    }
  }

  /**
   * A character outside the slug alphabet between two whitespace runs
   * leaves a double `-`: `"loja & cia"` gives `"loja--cia"`.
   */
  lemma SlugKeepsDoubleDash(a: string, w1: string, c: char, w2: string, b: string)
    requires SlugOnly(a) && SlugOnly(b) && a != [] && b != []
    requires w1 != [] && forall k :: 0 <= k < |w1| ==> JsText.IsWhiteSpace(w1[k])
    requires w2 != [] && forall k :: 0 <= k < |w2| ==> JsText.IsWhiteSpace(w2[k])
    requires !SlugChar(c) && !JsText.IsWhiteSpace(c) && !('A' <= c <= 'Z')
    ensures StoreSlug(a + w1 + [c] + w2 + b) == a + "--" + b
  {
    SlugTextIsFixed(a);
    SlugTextIsFixed(b);
    var s := a + w1 + [c] + w2 + b;
    assert JsText.ToLower(s) == s;
    var collapsed := CollapsedAroundDropped(a, w1, c, w2, b);
    calc {
      StoreSlug(s);
      KeepSlugChars(collapsed);
      { KeepAppend(a + "-", [c] + ("-" + b)); KeepAppend([c], "-" + b); }
      KeepSlugChars(a + "-") + (KeepSlugChars([c]) + KeepSlugChars("-" + b));
      { assert SlugOnly(a + "-") && SlugOnly("-" + b); KeepIdentity(a + "-"); KeepIdentity("-" + b); }
      (a + "-") + (KeepSlugChars([c]) + ("-" + b));
      { assert KeepSlugChars([c]) == []; }
      a + "--" + b;
    }
  }

  /** The whitespace step of `SlugKeepsDoubleDash`. */
  lemma CollapsedAroundDropped(a: string, w1: string, c: char, w2: string, b: string) returns (collapsed: string)
    requires NoWhiteSpace(a) && NoWhiteSpace(b) && a != [] && b != [] && !JsText.IsWhiteSpace(c)
    requires w1 != [] && forall k :: 0 <= k < |w1| ==> JsText.IsWhiteSpace(w1[k])
    requires w2 != [] && forall k :: 0 <= k < |w2| ==> JsText.IsWhiteSpace(w2[k])
    ensures collapsed == (a + "-") + ([c] + ("-" + b))
    ensures CollapseWhiteSpace(a + w1 + [c] + w2 + b) == collapsed
  {
    var tail := [c] + w2 + b;
    collapsed := (a + "-") + ([c] + ("-" + b));
    calc {
      CollapseWhiteSpace(a + w1 + [c] + w2 + b);
      { assert a + w1 + [c] + w2 + b == a + w1 + tail; }
      CollapseWhiteSpace(a + w1 + tail);
      { CollapseBetween(a, w1, tail); }
      CollapseWhiteSpace(a) + "-" + CollapseWhiteSpace(tail);
      { CollapseBetween([c], w2, b); }
      CollapseWhiteSpace(a) + "-" + (CollapseWhiteSpace([c]) + "-" + CollapseWhiteSpace(b));
      { CollapseIdentity(a); CollapseIdentity(b); CollapseIdentity([c]); }
      a + "-" + ([c] + "-" + b);
      collapsed;
    }
  }

  /** Filtering distributes over concatenation. */
  lemma {:induction false} KeepAppend(a: string, b: string)
    ensures KeepSlugChars(a + b) == KeepSlugChars(a) + KeepSlugChars(b)
    decreases |a|
  {
    if a == [] {
      assert a + b == b;
    } else {
      assert (a + b)[0] == a[0] && (a + b)[1..] == a[1..] + b;
      KeepAppend(a[1..], b);
    }
  }

  // ------------------------------------------------------------ auth state

  datatype User = User(id: string)

  /** A session; `user` is read as `session?.user ?? null`. */
  datatype Session = Session(user: Option<User>)

  datatype Profile = Profile(id: string, storeId: Option<string>, fullName: Option<string>, avatarUrl: Option<string>)

  datatype Store = Store(id: string, name: string, slug: string, plan: string, tryonsLimit: int, tryonsUsed: int, status: string)

  /** `session?.user ?? null`. */
  function UserOf(session: Option<Session>): Option<User> {
    if session.Some? then session.value.user else None
  }

  /** The provider's state: who is signed in, their profile, store and roles, and the loading flag. */
  class AuthState {
    var user: Option<User>
    var session: Option<Session>
    var profile: Option<Profile>
    var store: Option<Store>
    var roles: seq<AppRole>
    var loading: bool

    /** The user always follows the session, and a store is only ever loaded with its profile. */
    ghost predicate Valid()
      reads this
    {
      user == UserOf(session) && (store.Some? ==> profile.Some?)
    }

    constructor ()
      ensures Valid()
      ensures user == None && session == None && profile == None && store == None
      ensures roles == [] && loading
    {
      user, session, profile, store := None, None, None, None;
      roles := [];
      loading := true;
    }

    /** `signOut`: everything about the user is cleared; the loading flag is untouched. */
    method SignOut()
      modifies this
      ensures Valid()
      ensures user == None && session == None && profile == None && store == None && roles == []
      ensures loading == old(loading)
    {
      user := None;
      session := None;
      profile := None;
      store := None;
      roles := [];
    }

    /**
     * The `onAuthStateChange` listener. With a session user the user-data
     * fetch is scheduled for that user (returned in `fetchFor`) and the
     * loaded data is kept; without one profile, store and roles are
     * cleared. Only `SIGNED_OUT` ends loading.
     */
    method OnAuthStateChange(event: string, newSession: Option<Session>) returns (fetchFor: Option<string>)
      requires Valid()
      modifies this
      ensures Valid()
      ensures session == newSession && user == UserOf(newSession)
      ensures fetchFor.Some? <==> user.Some?
      ensures user.Some? ==> fetchFor == Some(user.value.id)
      ensures user.Some? ==> profile == old(profile) && store == old(store) && roles == old(roles)
      ensures user.None? ==> profile == None && store == None && roles == []
      ensures loading == (if event == "SIGNED_OUT" then false else old(loading))
    {
      session := newSession;
      user := UserOf(newSession);
      if user.Some? {
        fetchFor := Some(user.value.id);
      } else {
        fetchFor := None;
        profile := None;
        store := None;
        roles := [];
      }
      if event == "SIGNED_OUT" {
        loading := false;
      }
    }

    /**
     * `fetchUserData` given the rows the three reads return: a profile row
     * replaces the profile, a store row replaces the store only when that
     * profile names a store, and a roles answer replaces the roles.
     */
    method FetchUserData(profileData: Option<Profile>, storeData: Option<Store>, rolesData: Option<seq<AppRole>>)
      requires Valid()
      modifies this
      ensures Valid()
      ensures profile == (if profileData.Some? then profileData else old(profile))
      ensures store == (if profileData.Some? && Truthy(profileData.value.storeId) && storeData.Some?
                        then storeData else old(store))
      ensures roles == (if rolesData.Some? then rolesData.value else old(roles))
      ensures user == old(user) && session == old(session) && loading == old(loading)
    {
      if profileData.Some? {
        profile := profileData;
        if Truthy(profileData.value.storeId) {
          if storeData.Some? {
            store := storeData;
          }
        }
      }
      if rolesData.Some? {
        roles := rolesData.value;
      }
    }

    /**
     * The initial `getSession` lookup: adopt the session, fetch the user's
     * data when there is a user, and end loading in either case.
     */
    method OnInitialSession(initial: Option<Session>, profileData: Option<Profile>, storeData: Option<Store>,
                            rolesData: Option<seq<AppRole>>)
      requires Valid()
      modifies this
      ensures Valid() && !loading
      ensures session == initial && user == UserOf(initial)
      ensures user.None? ==> profile == old(profile) && store == old(store) && roles == old(roles)
      ensures user.Some? ==> roles == (if rolesData.Some? then rolesData.value else old(roles))
      ensures user.Some? ==> profile == (if profileData.Some? then profileData else old(profile))
      ensures user.Some? ==> store == (if profileData.Some? && Truthy(profileData.value.storeId) && storeData.Some?
                                       then storeData else old(store))
    {
      session := initial;
      user := UserOf(initial);
      if user.Some? {
        FetchUserData(profileData, storeData, rolesData);
      }
      loading := false;
    }
  }
}
