/** The profile endpoints (`UserApiController`): the caller's own profile,
    read and updated, a user's public profile, the avatar upload, the user
    search and the leaderboard. Every profile is reached through the
    get-or-create helper, so a user without a profile gets one on first
    access. Users are given as the map from user id to name. */
module UserApi {
  import opened Common
  import opened Text
  import opened Paging
  import opened ProfileModel
  import BlogPostModel
  import TaskModel
  import Base64

  type Post = BlogPostModel.Post
  type Task = TaskModel.Task

  // ================================================================ _get_profile

  /** All ids of a store lie in [1, nextId). */
  predicate Bounded(m: map<int, Profile>, nextId: int)
  {
    nextId >= 1 && forall id :: id in m ==> 1 <= id < nextId
  }

  /** `{'user_id': user}`. */
  function FreshVals(user: int): ProfileVals
  {
    NO_VALS.(userId := Put(user))
  }

  /** A new profile of `user` created at `now`: the defaults. */
  function Fresh(user: int, now: int): Profile
  {
    Defaults(now).(userId := user)
  }

  /** Creating the profile of a user who has none always succeeds and
      stores the defaults: they pass every constraint. */
  lemma FreshAccepted(m: map<int, Profile>, id: int, user: int, now: int)
    requires id !in m && Holders(m, user) == {}
    ensures NewProfile(m, id, FreshVals(user), now) == Ok(Fresh(user, now))
    ensures Fresh(user, now).userId == user
  {
    var p := Apply(Defaults(now), FreshVals(user));
    assert p.yearsOfExperience == 0 && p.phone == "" && p.website == "" && p.linkedinUrl == "";
    assert Sound(p);
    NotTaken(m, id, user);
    assert Apply(Defaults(now), CreateHook(FreshVals(user), now)) == Fresh(user, now);
  }

  /** The store and the profile id after `_get_profile(user)`. */
  datatype Got = Got(profiles: map<int, Profile>, nextId: int, id: int)

  /** `_get_profile`: the user's profile when there is one, else a new one
      under the next id. */
  function GetOrCreate(m: map<int, Profile>, nextId: int, user: int, now: int): (g: Got)
    requires Bounded(m, nextId)
    ensures g.id in g.profiles && g.profiles[g.id].userId == user
    ensures Bounded(g.profiles, g.nextId)
  {
    match FirstHolder(m, nextId, user)
    case Some(id) => Got(m, nextId, id)
    case None =>
      var stored := m[nextId := Fresh(user, now)];
      assert forall id :: id in stored ==> id == nextId || id in m;
      Got(stored, nextId + 1, nextId)
  }

  /** A user with a profile keeps it and the store is unchanged; a user
      without one gets a fresh profile under a new id. */
  lemma GetOrCreateCases(m: map<int, Profile>, nextId: int, user: int, now: int)
    requires Bounded(m, nextId)
    ensures var g := GetOrCreate(m, nextId, user, now);
      && (Holders(m, user) != {} ==> g.profiles == m && g.nextId == nextId && g.id in Holders(m, user))
      && (Holders(m, user) == {} ==>
            g.id !in m && g.profiles == m[g.id := Fresh(user, now)] && g.nextId == g.id + 1)
  {
  }

  /** A user without a profile is nobody else's user. */
  lemma NotTaken(m: map<int, Profile>, id: int, user: int)
    requires Holders(m, user) == {}
    ensures !Taken(m, id, user)
  {
    forall other | other in m
      ensures m[other].userId != user
    {
      assert other !in Holders(m, user);
    }
  }

  /** After `_get_profile(user)` there is still one profile per user, and
      the user has exactly one. */
  lemma GotOnlyHolder(m: map<int, Profile>, nextId: int, user: int, now: int)
    requires Bounded(m, nextId) && OnePerUser(m)
    ensures var g := GetOrCreate(m, nextId, user, now);
      OnePerUser(g.profiles) && Holders(g.profiles, user) == {g.id}
  {
    var g := GetOrCreate(m, nextId, user, now);
    GetOrCreateCases(m, nextId, user, now);
    if Holders(m, user) == {} {
      NotTaken(m, nextId, user);
      StoreKeepsOnePerUser(m, nextId, Fresh(user, now));
    }
    assert OnePerUser(g.profiles);
    forall other | other in Holders(g.profiles, user)
      ensures other == g.id
    {
      assert g.profiles[other].userId == g.profiles[g.id].userId;
    }
  }

  /** Once the profile exists, `_get_profile` finds that same profile and
      changes nothing, whenever it is called again. */
  lemma GetOrCreateIdempotent(m: map<int, Profile>, nextId: int, user: int, now: int, later: int)
    requires Bounded(m, nextId) && OnePerUser(m)
    ensures var g := GetOrCreate(m, nextId, user, now);
      GetOrCreate(g.profiles, g.nextId, user, later) == g
  {
    var g := GetOrCreate(m, nextId, user, now);
    GotOnlyHolder(m, nextId, user, now);
    var again := FirstHolder(g.profiles, g.nextId, user);
    assert again.Some? && again.value in Holders(g.profiles, user);
    assert again == Some(g.id);
    assert GetOrCreate(g.profiles, g.nextId, user, later) == Got(g.profiles, g.nextId, g.id);
  }

  /** `_get_profile(user)` on the store. */
  method GetProfile(store: ProfileStore, user: int, now: int) returns (id: int)
    requires store.Valid()
    modifies store
    ensures store.Valid()
    ensures var g := GetOrCreate(old(store.profiles), old(store.nextId), user, now);
      id == g.id && store.profiles == g.profiles && store.nextId == g.nextId
  {
    var found := store.ProfileOf(user);
    if found.Some? {
      return found.value;
    }
    FreshAccepted(store.profiles, store.nextId, user, now);
    var created := store.Create(FreshVals(user), now);
    id := created.value;
  }

  // ================================================================ _serialize_profile

  const PUBLIC_KEYS: set<string> := {
    "id", "user_id", "display_name", "bio", "avatar_url", "job_title", "company",
    "years_of_experience", "skills", "interests", "city", "country", "social_links",
    "profile_views", "posts_count", "tasks_count", "is_verified", "account_created"}

  const PRIVATE_KEYS: set<string> := {
    "phone", "website", "timezone", "preferred_language", "email_notifications",
    "newsletter_subscription", "last_login"}

  /** `get_social_links()` as a JSON object. */
  function LinksJson(links: map<string, string>): Json
  {
    JObj(map key | key in links :: JStr(links[key]))
  }

  /** The fields every view of a profile shows. */
  function PublicFields(id: int, p: Profile, users: map<int, string>, posts: map<int, Post>,
                        tasks: map<int, Task>): (fields: map<string, Json>)
    ensures fields.Keys == PUBLIC_KEYS
  {
    map[
      "id" := JInt(id),
      "user_id" := JInt(p.userId),
      "display_name" := UserName(users, p.userId),
      "bio" := JStr(p.bio),
      "avatar_url" := JStr(p.avatarUrl),
      "job_title" := JStr(p.jobTitle),
      "company" := JStr(p.company),
      "years_of_experience" := JInt(p.yearsOfExperience),
      "skills" := JTexts(ParseList(p.skills)),
      "interests" := JTexts(ParseList(p.interests)),
      "city" := JStr(p.city),
      "country" := JStr(p.country),
      "social_links" := LinksJson(SocialLinks(p)),
      "profile_views" := JInt(p.profileViews),
      "posts_count" := JInt(PostsCount(posts, p.userId)),
      "tasks_count" := JInt(TasksCount(tasks, p.userId)),
      "is_verified" := JBool(p.isVerified),
      "account_created" := JDate(p.accountCreated)]
  }

  /** The fields only the owner's view adds. */
  function PrivateFields(p: Profile): (fields: map<string, Json>)
    ensures fields.Keys == PRIVATE_KEYS
  {
    map[
      "phone" := JStr(p.phone),
      "website" := JStr(p.website),
      "timezone" := JStr(p.timezone),
      "preferred_language" := JStr(p.preferredLanguage),
      "email_notifications" := JBool(p.emailNotifications),
      "newsletter_subscription" := JBool(p.newsletterSubscription),
      "last_login" := JDate(p.lastLogin)]
  }

  /** No key is both public and private. */
  lemma KeysApart()
    ensures PUBLIC_KEYS !! PRIVATE_KEYS
  {
  }

  /** `_serialize_profile(profile, include_private)`: the public view hides
      the contact details, preferences and last login; the private view
      adds them and shows every public field unchanged. */
  function ProfileJson(id: int, p: Profile, users: map<int, string>, posts: map<int, Post>,
                       tasks: map<int, Task>, includePrivate: bool): (j: Json)
    ensures j.JObj?
    ensures j.fields.Keys == if includePrivate then PUBLIC_KEYS + PRIVATE_KEYS else PUBLIC_KEYS
    ensures !includePrivate ==> forall key :: key in PRIVATE_KEYS ==> key !in j.fields
  {
    KeysApart();
    var public := PublicFields(id, p, users, posts, tasks);
    if includePrivate then JObj(public + PrivateFields(p)) else JObj(public)
  }

  /** Both views show the same public fields, and the private view shows
      the owner's details as they are. */
  lemma ViewsAgree(id: int, p: Profile, users: map<int, string>, posts: map<int, Post>,
                   tasks: map<int, Task>)
    ensures var public, private := ProfileJson(id, p, users, posts, tasks, false),
                                   ProfileJson(id, p, users, posts, tasks, true);
      && public.fields == PublicFields(id, p, users, posts, tasks)
      && (forall key :: key in PUBLIC_KEYS ==> private.fields[key] == public.fields[key])
      && (forall key :: key in PRIVATE_KEYS ==> private.fields[key] == PrivateFields(p)[key])
  {
    KeysApart();
  }

  // ================================================================ GET /users/profile

  /** `get_my_profile`: the caller's profile, created if need be, with the
      login stamped, in the private view. */
  method GetMyProfile(store: ProfileStore, actor: int, now: int, users: map<int, string>,
                      posts: map<int, Post>, tasks: map<int, Task>) returns (r: Reply)
    requires store.Valid()
    modifies store
    ensures store.Valid()
    ensures var g := GetOrCreate(old(store.profiles), old(store.nextId), actor, now);
      && store.nextId == g.nextId
      && store.profiles == g.profiles[g.id := StampLogin(now)(g.profiles[g.id])]
      && r == Success(200, JObj(map["profile" := ProfileJson(g.id, store.profiles[g.id], users, posts, tasks, true)]))
  {
    var id := GetProfile(store, actor, now);
    ghost var got := store.profiles;
    store.ActionUpdateLastLogin({id}, now);
    UpdateOne(got, id, StampLogin(now));
    r := Success(200, JObj(map["profile" := ProfileJson(id, store.profiles[id], users, posts, tasks, true)]));
  }

  // ================================================================ PUT /users/profile

  /** The fields a caller may change on their own profile. */
  const SELF_UPDATABLE: seq<string> := [
    "bio", "avatar_url", "phone", "website", "linkedin_url", "github_username", "twitter_handle",
    "job_title", "company", "years_of_experience", "skills", "interests", "city", "country",
    "timezone", "preferred_language", "email_notifications", "newsletter_subscription"]

  const PROFILE_UPDATED := "Profile updated successfully"

  /** The `vals` of `update_my_profile`: the listed fields the request names. */
  function SelfVals(params: map<string, Value>): map<string, Value>
  {
    map key | key in params && key in SELF_UPDATABLE :: params[key]
  }

  /** The caller's profile after `update_my_profile`: unchanged when the
      request names no listed field, else the result of writing them (the
      write override's handle step, the conversion, the stored write). */
  function SelfUpdate(m: map<int, Profile>, id: int, params: map<string, Value>): (r: Result<Profile>)
    requires id in m && Sound(m[id])
    ensures SelfVals(params) == map[] ==> r == Ok(m[id])
    ensures r.Ok? ==> Sound(r.value)
    ensures "twitter_handle" in params && Truthy(params["twitter_handle"]) && !params["twitter_handle"].Str? ==>
      r == Err("'" + TypeName(params["twitter_handle"]) + "' object has no attribute 'lstrip'")
  {
    HandleListed(params);
    var vals := SelfVals(params);
    if vals == map[] then Ok(m[id])
    else if HandleError(vals).Some? then Err(HandleError(vals).value)
    else WriteDecoded(m, id, vals)
  }

  /** The ORM's part of `write(vals)`: the conversion, then the stored write. */
  function WriteDecoded(m: map<int, Profile>, id: int, vals: map<string, Value>): (r: Result<Profile>)
    requires id in m && Sound(m[id])
    ensures r.Ok? ==> Sound(r.value)
  {
    var decoded :- DecodeVals(vals);
    WriteProfile(m, id, decoded)
  }

  /** A handle in the request reaches the `vals` of `update_my_profile`. */
  lemma HandleListed(params: map<string, Value>)
    ensures "twitter_handle" in params ==>
      "twitter_handle" in SelfVals(params) && SelfVals(params)["twitter_handle"] == params["twitter_handle"]
  {
    assert SELF_UPDATABLE[6] == "twitter_handle";
  }

  /** Fields a caller cannot set on their own profile. */
  const PROTECTED: set<string> := {
    "user_id", "avatar", "profile_views", "last_login", "account_created", "is_verified", "is_active"}

  /** `update_my_profile` lists none of them. */
  lemma ProtectedUnlisted()
    ensures forall k :: 0 <= k < |SELF_UPDATABLE| ==> SELF_UPDATABLE[k] !in PROTECTED
  {
  }

  /** The caller cannot reach the user, the avatar, the counters, the dates
      or the verified and active flags through `update_my_profile`. */
  lemma SelfUpdateKeepsProtected(m: map<int, Profile>, id: int, params: map<string, Value>)
    requires id in m && Sound(m[id])
    requires SelfUpdate(m, id, params).Ok?
    ensures var p, q := m[id], SelfUpdate(m, id, params).value;
      && q.userId == p.userId && q.avatar == p.avatar && q.profileViews == p.profileViews
      && q.lastLogin == p.lastLogin && q.accountCreated == p.accountCreated
      && q.isVerified == p.isVerified && q.isActive == p.isActive
  {
    var vals := SelfVals(params);
    if vals != map[] {
      ProtectedUnlisted();
      assert forall key :: key in PROTECTED ==> key !in vals;
      var decoded := DecodeVals(vals).value;
      assert decoded.userId == Keep && decoded.avatar == Keep && decoded.profileViews == Keep;
      assert decoded.lastLogin == Keep && decoded.accountCreated == Keep;
      assert decoded.isVerified == Keep && decoded.isActive == Keep;
      var hooked := WriteHook(decoded);
      assert hooked.(twitterHandle := decoded.twitterHandle) == decoded;
    }
  }

  /** The `if vals: profile.write(vals)` step of `update_my_profile`. */
  method WriteSelf(store: ProfileStore, id: int, params: map<string, Value>) returns (u: Result<()>)
    requires store.Valid() && id in store.profiles
    modifies store
    ensures store.Valid() && store.nextId == old(store.nextId)
    ensures var want := SelfUpdate(old(store.profiles), id, params);
      && (u.Ok? <==> want.Ok?)
      && (want.Ok? ==> store.profiles == old(store.profiles)[id := want.value])
      && (want.Err? ==> store.profiles == old(store.profiles) && u.error == want.error)
  {
    var vals := PickFields(params, SELF_UPDATABLE);
    assert vals == SelfVals(params);
    if vals == map[] {
      assert store.profiles[id := store.profiles[id]] == store.profiles;
      return Ok(());
    }
    var handle := HandleError(vals);
    if handle.Some? {
      return Err(handle.value);
    }
    var decoded := DecodeVals(vals);
    if decoded.Err? {
      return Err(decoded.error);
    }
    u := store.Write(id, decoded.value);
  }

  /** `update_my_profile`: the profile is fetched or created first, and stays
      created when the write then fails; the JSON route answers a failure
      with the exception's text. */
  method UpdateMyProfile(store: ProfileStore, actor: int, params: map<string, Value>, now: int,
                         users: map<int, string>, posts: map<int, Post>, tasks: map<int, Task>)
    returns (r: Reply)
    requires store.Valid()
    modifies store
    ensures store.Valid()
    ensures var g := GetOrCreate(old(store.profiles), old(store.nextId), actor, now);
      var u := SelfUpdate(g.profiles, g.id, params);
      && store.nextId == g.nextId
      && (u.Ok? ==>
            && store.profiles == g.profiles[g.id := u.value]
            && r == Success(200, JObj(map["profile" := ProfileJson(g.id, u.value, users, posts, tasks, true),
                                         "message" := JStr(PROFILE_UPDATED)])))
      && (u.Err? ==> store.profiles == g.profiles && r == Failure(200, u.error))
  {
    var id := GetProfile(store, actor, now);
    var written := WriteSelf(store, id, params);
    if written.Err? {
      return Failure(200, written.error);
    }
    r := Success(200, JObj(map["profile" := ProfileJson(id, store.profiles[id], users, posts, tasks, true),
                                "message" := JStr(PROFILE_UPDATED)]));
  }

  // ================================================================ GET /users/<id>/profile

  const USER_NOT_FOUND := "User not found"

  /** `get_user_profile`: an unknown user gives 404 and changes nothing;
      otherwise the user's profile, created if need be, is counted as
      viewed once more and shown in the public view. */
  method GetUserProfile(store: ProfileStore, user: int, now: int, users: map<int, string>,
                        posts: map<int, Post>, tasks: map<int, Task>) returns (r: Reply)
    requires store.Valid()
    modifies store
    ensures store.Valid()
    ensures user !in users ==>
      r == Failure(404, USER_NOT_FOUND) && store.profiles == old(store.profiles) && store.nextId == old(store.nextId)
    ensures user in users ==>
      var g := GetOrCreate(old(store.profiles), old(store.nextId), user, now);
      && store.nextId == g.nextId
      && store.profiles == g.profiles[g.id := AddView(g.profiles[g.id])]
      && r == Success(200, JObj(map["profile" := ProfileJson(g.id, store.profiles[g.id], users, posts, tasks, false)]))
  {
    if user !in users {
      return Failure(404, USER_NOT_FOUND);
    }
    var id := GetProfile(store, user, now);
    ghost var got := store.profiles;
    store.ActionIncrementViews({id});
    UpdateOne(got, id, AddView);
    r := Success(200, JObj(map["profile" := ProfileJson(id, store.profiles[id], users, posts, tasks, false)]));
  }

  // ================================================================ POST /users/profile/avatar

  /** The `avatar` form entry: an uploaded file, or a plain text field
      (which has no file name). */
  datatype Upload = File(filename: string, content: seq<Base64.byte>) | Plain(text: string)

  const NO_FILE := "No file uploaded"
  const INVALID_TYPE := "Invalid file type. Allowed: JPG, PNG, GIF"
  const TOO_LARGE := "File too large. Maximum size: 2MB"
  const MAX_AVATAR_SIZE := 2 * 1024 * 1024
  const IMAGE_EXTENSIONS: seq<string> := [".jpg", ".jpeg", ".png", ".gif"]
  const AVATAR_UPLOADED := "Avatar uploaded successfully"

  /** An entry is falsy when it is missing, an empty text, or a file without
      a name. */
  predicate Submitted(avatar: Option<Upload>)
  {
    match avatar
    case None => false
    case Some(File(name, _)) => name != ""
    case Some(Plain(text)) => text != ""
  }

  /** `avatar_file.filename if hasattr(avatar_file, 'filename') else ''`. */
  function FileName(u: Upload): string
  {
    if u.File? then u.filename else ""
  }

  /** The lowered name ends with one of the image extensions. */
  predicate ImageName(name: string)
  {
    exists k :: 0 <= k < |IMAGE_EXTENSIONS| && EndsWith(Lower(name), IMAGE_EXTENSIONS[k])
  }

  /** The checks of `upload_avatar`, in order: an entry, an image name, at
      most 2 MB of content. On success, the content to store. */
  function AvatarCheck(avatar: Option<Upload>): (r: Result<seq<Base64.byte>>)
    ensures !Submitted(avatar) ==> r == Err(NO_FILE)
    ensures Submitted(avatar) && !ImageName(FileName(avatar.value)) ==> r == Err(INVALID_TYPE)
    ensures r.Ok? <==>
      Submitted(avatar) && ImageName(FileName(avatar.value)) && |avatar.value.content| <= MAX_AVATAR_SIZE
    ensures r.Ok? ==> r.value == avatar.value.content
    ensures r.Err? ==> r.error in {NO_FILE, INVALID_TYPE, TOO_LARGE}
  {
    if !Submitted(avatar) then Err(NO_FILE)
    else if !ImageName(FileName(avatar.value)) then Err(INVALID_TYPE)
    else if |avatar.value.content| > MAX_AVATAR_SIZE then Err(TOO_LARGE)
    else Ok(avatar.value.content)
  }

  /** A text field is never taken for an image. */
  lemma PlainFieldRefused(text: string)
    requires text != ""
    ensures AvatarCheck(Some(Plain(text))) == Err(INVALID_TYPE)
  {
    assert FileName(Plain(text)) == "";
    forall k | 0 <= k < |IMAGE_EXTENSIONS|
      ensures !EndsWith(Lower(""), IMAGE_EXTENSIONS[k])
    {
      assert |IMAGE_EXTENSIONS[k]| > 0;
    }
  }

  /** Writing the avatar touches no constrained field, so it always succeeds
      and changes the avatar alone. */
  lemma AvatarIsWrite(m: map<int, Profile>, id: int, avatar: string)
    requires id in m && Sound(m[id])
    ensures WriteProfile(m, id, NO_VALS.(avatar := Put(avatar))) == Ok(m[id].(avatar := avatar))
  {
  }

  /** `upload_avatar`: a refused upload changes nothing; an accepted one
      stores the base64 text of the content on the caller's profile,
      created if need be. */
  method UploadAvatar(store: ProfileStore, actor: int, avatar: Option<Upload>, now: int,
                      users: map<int, string>, posts: map<int, Post>, tasks: map<int, Task>) returns (r: Reply)
    requires store.Valid()
    modifies store
    ensures store.Valid()
    ensures AvatarCheck(avatar).Err? ==>
      && r == Failure(400, AvatarCheck(avatar).error)
      && store.profiles == old(store.profiles) && store.nextId == old(store.nextId)
    ensures AvatarCheck(avatar).Ok? ==>
      var g := GetOrCreate(old(store.profiles), old(store.nextId), actor, now);
      var p := g.profiles[g.id].(avatar := Base64.Encode(AvatarCheck(avatar).value));
      && store.nextId == g.nextId
      && store.profiles == g.profiles[g.id := p]
      && r == Success(200, JObj(map["message" := JStr(AVATAR_UPLOADED),
                                    "profile" := ProfileJson(g.id, p, users, posts, tasks, true)]))
  {
    var content := AvatarCheck(avatar);
    if content.Err? {
      return Failure(400, content.error);
    }
    var encoded := Base64.Encode(content.value);
    var id := GetProfile(store, actor, now);
    AvatarIsWrite(store.profiles, id, encoded);
    var written := store.Write(id, NO_VALS.(avatar := Put(encoded)));
    r := Success(200, JObj(map["message" := JStr(AVATAR_UPLOADED),
                                "profile" := ProfileJson(id, store.profiles[id], users, posts, tasks, true)]));
  }

  /** The stored avatar decodes back to the uploaded content. */
  lemma StoredAvatarDecodes(content: seq<Base64.byte>)
    ensures |Base64.Encode(content)| % 4 == 0
    ensures Base64.Decode(Base64.Encode(content)) == content
  {
    Base64.DecodeEncode(content);
  }

  // ================================================================ GET /users/search

  const SEARCH_LIMIT := 10
  const MAX_SEARCH_LIMIT := 50
  const QUERY_REQUIRED := "Search query (q) is required"

  /** The search domain: the user's name, the job title or the company
      contains the query, ignoring case. */
  predicate Found(users: map<int, string>, q: string, p: Profile)
  {
    (p.userId in users && ILike(users[p.userId], q)) || ILike(p.jobTitle, q) || ILike(p.company, q)
  }

  /** The test of `search_users`' domain. */
  function Searched(users: map<int, string>, q: string): Profile -> bool
  {
    (p: Profile) => Found(users, q, p)
  }

  /** The ids a search lists: found profiles, at most `limit` of them (0
      meaning all). */
  function SearchResults(m: map<int, Profile>, ids: seq<int>, users: map<int, string>, q: string,
                         limit: nat): (r: seq<int>)
    requires forall k :: 0 <= k < |ids| ==> ids[k] in m
    ensures forall k :: 0 <= k < |r| ==> r[k] in m && Found(users, q, m[r[k]])
    ensures limit > 0 ==> |r| <= limit
    ensures limit == 0 ==> forall k :: 0 <= k < |ids| && Found(users, q, m[ids[k]]) ==> ids[k] in r
  {
    Window(Select(m, ids, Searched(users, q)), 0, limit)
  }

  /** Over an ascending listing the search lists the first found profiles:
      ascending, as many as were found up to the limit, and every found
      profile it leaves out comes after all those listed. */
  lemma SearchListsFirstFound(m: map<int, Profile>, ids: seq<int>, users: map<int, string>, q: string, limit: nat)
    requires forall k :: 0 <= k < |ids| ==> ids[k] in m
    requires Increasing(ids)
    ensures var r := SearchResults(m, ids, users, q, limit);
      var n := |Satisfying(m, ids, Searched(users, q))|;
      && Increasing(r)
      && |r| == (if limit == 0 || n <= limit then n else limit)
      && forall k, j :: 0 <= k < |ids| && Searched(users, q)(m[ids[k]]) && ids[k] !in r && 0 <= j < |r| ==> r[j] < ids[k]
  {
    WindowOfSelect(m, ids, Searched(users, q), limit);
  }

  /** The public views of some profiles. */
  function PublicViews(m: map<int, Profile>, ids: seq<int>, users: map<int, string>,
                       posts: map<int, Post>, tasks: map<int, Task>): (views: seq<Json>)
    requires forall k :: 0 <= k < |ids| ==> ids[k] in m
    ensures |views| == |ids|
    ensures forall k :: 0 <= k < |ids| ==> views[k] == ProfileJson(ids[k], m[ids[k]], users, posts, tasks, false)
  {
    seq(|ids|, k requires 0 <= k < |ids| => ProfileJson(ids[k], m[ids[k]], users, posts, tasks, false))
  }

  /** `search_users`: the limit is read first (an error there is a 500),
      then an empty query gives 400 and a negative limit is refused by the
      database; otherwise the public views of the found profiles. */
  function SearchUsers(store: ProfileStore, params: map<string, string>, users: map<int, string>,
                       posts: map<int, Post>, tasks: map<int, Task>): (r: Reply)
    reads store
    requires store.Valid()
    ensures LimitParam(params, SEARCH_LIMIT, MAX_SEARCH_LIMIT).Err? ==> r == Failure(500, INTERNAL_ERROR)
    ensures LimitParam(params, SEARCH_LIMIT, MAX_SEARCH_LIMIT).Ok? && ParamOr(params, "q", "") == "" ==>
      r == Failure(400, QUERY_REQUIRED)
    ensures r.Success? <==>
      && LimitParam(params, SEARCH_LIMIT, MAX_SEARCH_LIMIT).Ok?
      && ParamOr(params, "q", "") != ""
      && LimitParam(params, SEARCH_LIMIT, MAX_SEARCH_LIMIT).value >= 0
    ensures r.Success? ==>
      && r.status == 200 && r.data.JObj? && "profiles" in r.data.fields
      && r.data.fields["profiles"] == JArr(PublicViews(store.profiles,
           SearchResults(store.profiles, store.Ids(), users, params["q"], LimitParam(params, SEARCH_LIMIT, MAX_SEARCH_LIMIT).value),
           users, posts, tasks))
  {
    var limit := LimitParam(params, SEARCH_LIMIT, MAX_SEARCH_LIMIT);
    if limit.Err? then Failure(500, INTERNAL_ERROR)
    else if ParamOr(params, "q", "") == "" then Failure(400, QUERY_REQUIRED)
    else if limit.value < 0 then Failure(500, INTERNAL_ERROR)
    else
      var found := SearchResults(store.profiles, store.Ids(), users, params["q"], limit.value);
      var views := PublicViews(store.profiles, found, users, posts, tasks);
      Success(200, JObj(map["profiles" := JArr(views), "count" := JInt(|views|), "query" := JStr(params["q"])]))
  }

  /** Over the whole store the search lists as many profiles as
      `search_count` finds, up to the limit. */
  lemma SearchCount(store: ProfileStore, users: map<int, string>, q: string, limit: nat)
    requires store.Valid()
    ensures var n := Count(store.profiles, Searched(users, q));
      |SearchResults(store.profiles, store.Ids(), users, q, limit)| == if limit == 0 || n <= limit then n else limit
  {
    SearchListsFirstFound(store.profiles, store.Ids(), users, q, limit);
    SelectCard(store.profiles, store.Ids(), Searched(users, q));
    SelectCount(store.profiles, store.nextId, Searched(users, q));
  }

  // ================================================================ GET /users/leaderboard

  const LEADERBOARD_LIMIT := 10
  const MAX_LEADERBOARD_LIMIT := 50

  /** One leaderboard row. */
  function LeaderEntry(rank: int, p: Profile, users: map<int, string>, posts: map<int, Post>): (j: Json)
    ensures j.JObj? && "rank" in j.fields && j.fields["rank"] == JInt(rank)
  {
    JObj(map[
      "rank" := JInt(rank),
      "user_id" := JInt(p.userId),
      "display_name" := UserName(users, p.userId),
      "job_title" := JStr(p.jobTitle),
      "posts_count" := JInt(PostsCount(posts, p.userId)),
      "profile_views" := JInt(p.profileViews),
      "is_verified" := JBool(p.isVerified)])
  }

  /** The rows of some profiles, ranked 1, 2, ... in their order. */
  function Ranked(m: map<int, Profile>, ids: seq<int>, users: map<int, string>, posts: map<int, Post>): (board: seq<Json>)
    requires forall k :: 0 <= k < |ids| ==> ids[k] in m
    ensures |board| == |ids|
    ensures forall k :: 0 <= k < |ids| ==> board[k] == LeaderEntry(k + 1, m[ids[k]], users, posts)
  {
    seq(|ids|, k requires 0 <= k < |ids| => LeaderEntry(k + 1, m[ids[k]], users, posts))
  }

  /** The board of one more profile has one more row, ranked last. */
  lemma RankedNext(m: map<int, Profile>, ids: seq<int>, i: int, users: map<int, string>, posts: map<int, Post>)
    requires forall k :: 0 <= k < |ids| ==> ids[k] in m
    requires 0 <= i < |ids|
    ensures Ranked(m, ids[..i + 1], users, posts) == Ranked(m, ids[..i], users, posts) + [LeaderEntry(i + 1, m[ids[i]], users, posts)]
  {
    var next, board := Ranked(m, ids[..i + 1], users, posts), Ranked(m, ids[..i], users, posts);
    forall k | 0 <= k < i + 1
      ensures next[k] == (board + [LeaderEntry(i + 1, m[ids[i]], users, posts)])[k]
    {
      if k < i {
        assert ids[..i + 1][k] == ids[..i][k];
      }
    }
  }

  /** The `enumerate(profiles, 1)` loop: one row per profile, appended in order. */
  method RankRows(m: map<int, Profile>, ids: seq<int>, users: map<int, string>, posts: map<int, Post>)
    returns (board: seq<Json>)
    requires forall k :: 0 <= k < |ids| ==> ids[k] in m
    ensures board == Ranked(m, ids, users, posts)
  {
    board := [];
    var i := 0;
    while i < |ids|
      invariant 0 <= i <= |ids|
      invariant board == Ranked(m, ids[..i], users, posts)
    {
      RankedNext(m, ids, i, users, posts);
      board := board + [LeaderEntry(i + 1, m[ids[i]], users, posts)];
      i := i + 1;
    }
    assert ids[..i] == ids;
  }

  /** The ranks of a board are 1 to its length, in order, without gaps. */
  lemma RanksInOrder(m: map<int, Profile>, ids: seq<int>, users: map<int, string>, posts: map<int, Post>)
    requires forall k :: 0 <= k < |ids| ==> ids[k] in m
    ensures var board := Ranked(m, ids, users, posts);
      forall k :: 0 <= k < |board| ==> board[k].JObj? && board[k].fields["rank"] == JInt(k + 1)
  {
  }

  /** `get_leaderboard`: at most `limit` profiles (0 meaning all), ranked
      1, 2, ... in listing order; a bad or negative limit is a 500. */
  method Leaderboard(store: ProfileStore, params: map<string, string>, users: map<int, string>,
                     posts: map<int, Post>) returns (r: Reply)
    requires store.Valid()
    ensures var limit := LimitParam(params, LEADERBOARD_LIMIT, MAX_LEADERBOARD_LIMIT);
      r.Success? <==> limit.Ok? && limit.value >= 0
    ensures r.Failure? ==> r == Failure(500, INTERNAL_ERROR)
    ensures r.Success? ==>
      var limit := LimitParam(params, LEADERBOARD_LIMIT, MAX_LEADERBOARD_LIMIT).value;
      var board := Ranked(store.profiles, Window(store.Ids(), 0, limit), users, posts);
      && (limit > 0 ==> |board| <= limit)
      && r == Success(200, JObj(map["leaderboard" := JArr(board), "count" := JInt(|board|)]))
  {
    var limit := LimitParam(params, LEADERBOARD_LIMIT, MAX_LEADERBOARD_LIMIT);
    if limit.Err? || limit.value < 0 {
      return Failure(500, INTERNAL_ERROR);
    }
    var ids := Window(store.Ids(), 0, limit.value);
    var board := RankRows(store.profiles, ids, users, posts);
    r := Success(200, JObj(map["leaderboard" := JArr(board), "count" := JInt(|board|)]));
  }
}
