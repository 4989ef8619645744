/** The extended user profile (`api.user.profile`): at most one per user,
    with contact, professional and preference fields, the experience, phone
    and URL constraints, the comma-separated skill and interest lists, the
    social links, the create and write hooks and the actions that count
    views, verify the account and stamp the last login. The store of
    profiles is a class over a map from id to record. */
module ProfileModel {
  import opened Common
  import opened Text
  import opened Fields
  import BlogPostModel
  import TaskModel

  // ================================================================ selections

  const TIMEZONES: set<string> := {
    "UTC-12", "UTC-11", "UTC-10", "UTC-9", "UTC-8", "UTC-7", "UTC-6", "UTC-5", "UTC-4",
    "UTC-3", "UTC-2", "UTC-1", "UTC", "UTC+1", "UTC+2", "UTC+3", "UTC+4", "UTC+5",
    "UTC+6", "UTC+7", "UTC+8", "UTC+9", "UTC+10", "UTC+11", "UTC+12"}

  const LANGUAGES: set<string> := {"en", "es", "fr", "de", "pt", "zh", "ja"}

  /** A selection field holds one of its keys, or nothing (""). */
  type TimezoneKey = s: string | s == "" || s in TIMEZONES
  type LanguageKey = s: string | s == "" || s in LANGUAGES

  // ================================================================ the record

  /** Dates are second numbers; the avatar is the stored base64 text. */
  datatype Profile = Profile(
    userId: int,
    bio: string,
    avatar: string,
    avatarUrl: string,
    phone: string,
    website: string,
    linkedinUrl: string,
    githubUsername: string,
    twitterHandle: string,
    jobTitle: string,
    company: string,
    yearsOfExperience: int,
    skills: string,
    interests: string,
    city: string,
    country: string,
    timezone: TimezoneKey,
    preferredLanguage: LanguageKey,
    emailNotifications: bool,
    newsletterSubscription: bool,
    profileViews: int,
    lastLogin: Option<int>,
    accountCreated: Option<int>,
    isVerified: bool,
    isActive: bool)

  // ================================================================ computed counts

  /** `posts_count`: the blog posts the profile's user wrote. */
  function PostsCount(posts: map<int, BlogPostModel.Post>, user: int): nat
  {
    Count(posts, (p: BlogPostModel.Post) => p.authorId == user)
  }

  /** `tasks_count`: the tasks assigned to the profile's user. */
  function TasksCount(tasks: map<int, TaskModel.Task>, user: int): nat
  {
    Count(tasks, (t: TaskModel.Task) => t.assignedTo == Some(user))
  }

  /** A new post raises its author's count by one and leaves every other
      user's count alone; the same holds for a new task and its assignee. */
  lemma CountsFollowNewRecords(posts: map<int, BlogPostModel.Post>, tasks: map<int, TaskModel.Task>,
                               postId: int, post: BlogPostModel.Post, taskId: int, task: TaskModel.Task, user: int)
    requires postId !in posts && taskId !in tasks
    ensures PostsCount(posts[postId := post], user) == PostsCount(posts, user) + (if post.authorId == user then 1 else 0)
    ensures TasksCount(tasks[taskId := task], user) == TasksCount(tasks, user) + (if task.assignedTo == Some(user) then 1 else 0)
  {
    CountInsert(posts, postId, post, (p: BlogPostModel.Post) => p.authorId == user);
    CountInsert(tasks, taskId, task, (t: TaskModel.Task) => t.assignedTo == Some(user));
  }

  // ================================================================ years of experience

  const NEGATIVE_EXPERIENCE := "Years of experience cannot be negative"
  const UNREALISTIC_EXPERIENCE := "Years of experience seems unrealistic"
  const MAX_EXPERIENCE := 70

  /** `_check_experience`. */
  function ExperienceError(years: int): (e: Option<string>)
    ensures e.None? <==> 0 <= years <= MAX_EXPERIENCE
    ensures years < 0 ==> e == Some(NEGATIVE_EXPERIENCE)
    ensures years > MAX_EXPERIENCE ==> e == Some(UNREALISTIC_EXPERIENCE)
  {
    if years < 0 then Some(NEGATIVE_EXPERIENCE)
    else if years > MAX_EXPERIENCE then Some(UNREALISTIC_EXPERIENCE)
    else None
  }

  // ================================================================ phone numbers

  const INVALID_PHONE := "Please enter a valid phone number"

  /** The separators the phone check removes before matching: whitespace,
      '-', '(' and ')'. */
  predicate PhoneSeparator(c: char) { IsSpace(c) || c == '-' || c == '(' || c == ')' }
  predicate PhoneKept(c: char) { !PhoneSeparator(c) }

  /** An optional '+' followed by 7 to 15 digits and nothing else. */
  predicate PhoneShape(s: string)
  {
    var digits := if s != [] && s[0] == '+' then s[1..] else s;
    7 <= |digits| <= 15 && AllDigits(digits)
  }

  /** `_check_phone_format`: an empty phone is not checked. */
  function PhoneError(phone: string): Option<string>
  {
    if phone != "" && !PhoneShape(Filter(phone, PhoneKept)) then Some(INVALID_PHONE) else None
  }

  /** What an accepted phone number is made of: 7 to 15 digits, separators,
      and at most a leading '+' once the separators are gone. */
  lemma PhoneAccepted(phone: string)
    requires phone != "" && PhoneError(phone).None?
    ensures 7 <= |Filter(phone, IsDigit)| <= 15
    ensures forall c :: c in phone ==> IsDigit(c) || PhoneSeparator(c) || c == '+'
  {
    var cleaned := Filter(phone, PhoneKept);
    var digits := if cleaned != [] && cleaned[0] == '+' then cleaned[1..] else cleaned;
    if cleaned != [] && cleaned[0] == '+' {
      assert cleaned == ['+'] + digits;
    } else {
      assert cleaned == digits;
    }
    FilterDigitsOfKept(phone);
    assert Filter(digits, IsDigit) == digits by { FilterAll(digits, IsDigit); }
    if cleaned != [] && cleaned[0] == '+' {
      FilterAppend(['+'], digits, IsDigit);
      assert Filter(['+'], IsDigit) == [] by { assert ['+'][1..] == []; }
    }
    forall c | c in phone
      ensures IsDigit(c) || PhoneSeparator(c) || c == '+'
    {
      if !PhoneSeparator(c) {
        FilterKeeps(phone, PhoneKept, c);
        assert c in cleaned;
        if c !in digits {
          assert c == '+';
        }
      }
    }
  }

  /** Removing the separators first does not change which digits there are. */
  lemma {:induction false} FilterDigitsOfKept(s: string)
    ensures Filter(Filter(s, PhoneKept), IsDigit) == Filter(s, IsDigit)
  {
    if s != [] {
      var head := if PhoneKept(s[0]) then [s[0]] else [];
      assert Filter(s, PhoneKept) == head + Filter(s[1..], PhoneKept);
      FilterAppend(head, Filter(s[1..], PhoneKept), IsDigit);
      assert Filter(head, IsDigit) == if IsDigit(s[0]) then [s[0]] else [] by {
        if head != [] { assert head[1..] == []; }
      }
      FilterDigitsOfKept(s[1..]);
    }
  }

  /** A character that satisfies `p` survives the filter. */
  lemma {:induction false} FilterKeeps(s: string, p: char -> bool, c: char)
    requires c in s && p(c)
    ensures c in Filter(s, p)
  {
    if s[0] != c {
      FilterKeeps(s[1..], p, c);
    }
  }

  /** Separators may be put anywhere in a number without changing whether
      it is accepted. */
  lemma SeparatorsIgnored(a: string, sep: char, b: string)
    requires PhoneSeparator(sep) && a + b != ""
    ensures PhoneError(a + [sep] + b) == PhoneError(a + b)
  {
    SeparatorCleaned(a, sep, b);
  }

  lemma SeparatorCleaned(a: string, sep: char, b: string)
    requires PhoneSeparator(sep)
    ensures Filter(a + [sep] + b, PhoneKept) == Filter(a + b, PhoneKept)
  {
    FilterAppend(a + [sep], b, PhoneKept);
    FilterAppend(a, [sep], PhoneKept);
    FilterAppend(a, b, PhoneKept);
    assert Filter([sep], PhoneKept) == [] by { assert [sep][1..] == []; }
  }

  /** Groups of digits joined by dashes, as in 123-456-7890, are accepted
      when there are 7 to 15 digits in all. */
  lemma DashedDigitsAccepted(a: string, b: string, c: string)
    requires AllDigits(a) && AllDigits(b) && AllDigits(c)
    requires 7 <= |a| + |b| + |c| <= 15
    ensures PhoneError(a + ['-'] + b + ['-'] + c) == None
  {
    DashesCleaned(a, b, c);
    DigitsJoined(a, b, c);
    DigitsKept(a + b + c);
  }

  lemma DashesCleaned(a: string, b: string, c: string)
    ensures Filter(a + ['-'] + b + ['-'] + c, PhoneKept) == Filter(a + b + c, PhoneKept)
  {
    SeparatorCleaned(a + ['-'] + b, '-', c);
    SeparatorCleaned(a, '-', b + c);
    assert (a + ['-'] + b) + c == a + ['-'] + (b + c);
    assert a + (b + c) == a + b + c;
  }

  lemma DigitsJoined(a: string, b: string, c: string)
    requires AllDigits(a) && AllDigits(b) && AllDigits(c)
    ensures AllDigits(a + b + c)
  {
    var digits := a + b + c;
    forall k | 0 <= k < |digits| ensures IsDigit(digits[k]) {
      if k < |a| { assert digits[k] == a[k]; }
      else if k < |a| + |b| { assert digits[k] == b[k - |a|]; }
      else { assert digits[k] == c[k - |a| - |b|]; }
    }
  }

  lemma DigitsKept(s: string)
    requires AllDigits(s)
    ensures Filter(s, PhoneKept) == s
  {
    forall c | c in s ensures PhoneKept(c) {
      var k :| 0 <= k < |s| && s[k] == c;
    }
    FilterAll(s, PhoneKept);
  }

  /** Too few digits are refused. */
  lemma ShortNumberRefused()
    ensures PhoneError("abc") == Some(INVALID_PHONE)
  {
    assert |Filter("abc", PhoneKept)| <= 3;
  }

  // ================================================================ URLs

  const INVALID_WEBSITE := "Please enter a valid website URL (must start with http:// or https://)"
  const INVALID_LINKEDIN := "Please enter a valid LinkedIn URL"

  /** `https?://`, in any case. */
  predicate Scheme(s: string)
  {
    Lower(s) == "http://" || Lower(s) == "https://"
  }

  predicate LabelChar(c: char) { IsAlnum(c) || c == '-' }

  /** One label of a domain name: 1 to 63 letters, digits and hyphens that
      starts and ends with a letter or a digit. */
  predicate Label(l: string)
  {
    1 <= |l| <= 63 && IsAlnum(l[0]) && IsAlnum(l[|l| - 1])
    && forall k :: 0 <= k < |l| ==> LabelChar(l[k])
  }

  /** The top-level domain: 2 to 6 letters. */
  predicate TopLevel(t: string)
  {
    2 <= |t| <= 6 && forall k :: 0 <= k < |t| ==> IsAlpha(t[k])
  }

  /** One or more labels each followed by a dot, then the top-level domain
      and an optional final dot. */
  predicate DomainName(h: string)
  {
    var name := if h != [] && h[|h| - 1] == '.' then h[..|h| - 1] else h;
    var labels := SplitOn(name, '.');
    |labels| >= 2 && TopLevel(labels[|labels| - 1])
    && forall k :: 0 <= k < |labels| - 1 ==> Label(labels[k])
  }

  /** Four dot-separated groups of 1 to 3 digits. */
  predicate IpAddress(h: string)
  {
    var groups := SplitOn(h, '.');
    |groups| == 4 && forall k :: 0 <= k < 4 ==> 1 <= |groups[k]| <= 3 && AllDigits(groups[k])
  }

  predicate Host(h: string)
  {
    DomainName(h) || Lower(h) == "localhost" || IpAddress(h)
  }

  /** `(?::\d+)?` */
  predicate Port(p: string)
  {
    p == [] || (|p| >= 2 && p[0] == ':' && AllDigits(p[1..]))
  }

  /** `(?:/?|[/?]\S+)`: nothing, a slash, or '/' or '?' then non-blank text. */
  predicate PathPart(t: string)
  {
    t == [] || t == "/"
    || (|t| >= 2 && (t[0] == '/' || t[0] == '?') && forall k :: 1 <= k < |t| ==> !IsSpace(t[k]))
  }

  /** `s` read as scheme, host, port and path cut at `a`, `b` and `c`. */
  predicate UrlParts(s: string, a: int, b: int, c: int)
  {
    0 <= a <= b <= c <= |s| && Scheme(s[..a]) && Host(s[a..b]) && Port(s[b..c]) && PathPart(s[c..])
  }

  predicate UrlBody(s: string)
  {
    exists a, b, c | 0 <= a <= b <= c <= |s| :: UrlParts(s, a, b, c)
  }

  /** The URL pattern of `_check_url_format`, matched from the start; its
      `$` also matches before a final line feed. */
  predicate UrlMatch(s: string)
  {
    UrlBody(s) || (s != [] && s[|s| - 1] == '\n' && UrlBody(s[..|s| - 1]))
  }

  /** `_check_url_format`: the website first, then the LinkedIn URL; empty
      ones are not checked. */
  function UrlError(p: Profile): (e: Option<string>)
    ensures e.None? <==> (p.website == "" || UrlMatch(p.website)) && (p.linkedinUrl == "" || UrlMatch(p.linkedinUrl))
  {
    if p.website != "" && !UrlMatch(p.website) then Some(INVALID_WEBSITE)
    else if p.linkedinUrl != "" && !UrlMatch(p.linkedinUrl) then Some(INVALID_LINKEDIN)
    else None
  }

  /** Every accepted URL starts with http:// or https://, in any case. */
  lemma UrlNeedsScheme(s: string)
    requires UrlMatch(s)
    ensures StartsWith(Lower(s), "http://") || StartsWith(Lower(s), "https://")
    ensures |s| > 0 && LowerChar(s[0]) == 'h'
  {
    if UrlBody(s) {
      BodyNeedsScheme(s);
    } else {
      var t := s[..|s| - 1];
      BodyNeedsScheme(t);
      assert Lower(t) == Lower(s)[..|t|];
      assert t[0] == s[0];
    }
  }

  lemma BodyNeedsScheme(s: string)
    requires UrlBody(s)
    ensures StartsWith(Lower(s), "http://") || StartsWith(Lower(s), "https://")
    ensures |s| > 0 && LowerChar(s[0]) == 'h'
  {
    var a, b, c :| 0 <= a <= b <= c <= |s| && UrlParts(s, a, b, c);
    SchemePrefix(s, a);
  }

  lemma SchemePrefix(s: string, a: int)
    requires 0 <= a <= |s| && Scheme(s[..a])
    ensures a <= |s| && Lower(s)[..a] == Lower(s[..a])
    ensures StartsWith(Lower(s), "http://") || StartsWith(Lower(s), "https://")
    ensures |s| > 0 && LowerChar(s[0]) == 'h'
  {
    assert Lower(s)[..a] == Lower(s[..a]);
    assert Lower(s[..a])[0] == 'h';
  }

  /** A text whose first letter is not an h is refused; "example.com" is. */
  lemma RefusedWithoutScheme(s: string)
    requires s == [] || LowerChar(s[0]) != 'h'
    ensures !UrlMatch(s)
  {
    if UrlMatch(s) {
      UrlNeedsScheme(s);
      assert false;
    }
  }

  /** "https://example.com" is accepted. */
  lemma HttpsUrlAccepted()
    ensures UrlMatch("https://" + "example" + "." + "com")
  {
    var s := "https://" + "example" + "." + "com";
    DomainExample();
    assert s[..8] == "https://";
    assert Lower("https://") == "https://";
    assert s[8..19] == "example" + "." + "com";
    assert s[19..19] == [] && s[19..] == [];
    assert UrlParts(s, 8, 19, 19);
  }

  lemma DomainExample()
    ensures DomainName("example" + "." + "com")
  {
    var h := "example" + "." + "com";
    assert Join(["example", "com"], ".") == h;
    SplitJoin(["example", "com"], '.');
    assert SplitOn(h, '.') == ["example", "com"];
    assert Label("example");
    assert TopLevel("com");
  }

  /** "http://localhost:8069/web" is accepted. */
  lemma LocalUrlAccepted()
    ensures UrlMatch("http://" + "localhost" + ":8069" + "/web")
  {
    var s := "http://" + "localhost" + ":8069" + "/web";
    assert s[..7] == "http://";
    assert Lower("http://") == "http://";
    assert s[7..16] == "localhost";
    assert Lower("localhost") == "localhost";
    assert s[16..21] == ":8069";
    assert ":8069"[1..] == "8069";
    assert s[21..] == "/web";
    assert UrlParts(s, 7, 16, 21);
  }

  // ================================================================ skills and interests

  /** The stripped, non-empty pieces. */
  function Stripped(parts: seq<string>): seq<string>
  {
    if parts == [] then []
    else (if Strip(parts[0]) != "" then [Strip(parts[0])] else []) + Stripped(parts[1..])
  }

  /** `get_skills_list` and `get_interests_list`: the comma-separated items,
      stripped, without the empty ones. */
  function ParseList(s: string): seq<string>
  {
    if s == "" then [] else Stripped(SplitOn(s, ','))
  }

  /** An item as the list keeps it: not empty, without commas, without
      surrounding whitespace. */
  predicate CleanItem(item: string)
  {
    item != "" && ',' !in item && !IsSpace(item[0]) && !IsSpace(item[|item| - 1])
  }

  lemma StripClean(s: string)
    requires ',' !in s && Strip(s) != ""
    ensures CleanItem(Strip(s))
  {
    StripSlice(s);
  }

  lemma {:induction false} StrippedClean(parts: seq<string>)
    requires forall k :: 0 <= k < |parts| ==> ',' !in parts[k]
    ensures forall k :: 0 <= k < |Stripped(parts)| ==> CleanItem(Stripped(parts)[k])
  {
    if parts != [] {
      StrippedClean(parts[1..]);
      if Strip(parts[0]) != "" {
        StripClean(parts[0]);
      }
    }
  }

  /** Every listed item is clean. */
  lemma ListItemsClean(s: string)
    ensures forall k :: 0 <= k < |ParseList(s)| ==> CleanItem(ParseList(s)[k])
  {
    if s != "" {
      StrippedClean(SplitOn(s, ','));
    }
  }

  lemma {:induction false} StrippedOfClean(items: seq<string>)
    requires forall k :: 0 <= k < |items| ==> CleanItem(items[k])
    ensures Stripped(items) == items
  {
    if items != [] {
      StripNoSurroundingSpace(items[0]);
      StrippedOfClean(items[1..]);
    }
  }

  lemma JoinStartsWith(items: seq<string>, sep: string)
    requires items != []
    ensures StartsWith(Join(items, sep), items[0])
  {
  }

  /** Clean items written comma-separated are listed back as they were. */
  lemma ListRoundTrip(items: seq<string>)
    requires forall k :: 0 <= k < |items| ==> CleanItem(items[k])
    ensures ParseList(Join(items, ",")) == items
  {
    if items != [] {
      JoinStartsWith(items, ",");
      assert Join(items, ",") != "";
      SplitJoin(items, ',');
      StrippedOfClean(items);
    }
  }

  // ================================================================ social links

  const GITHUB_PREFIX := "https://github.com/"
  const TWITTER_PREFIX := "https://twitter.com/"

  /** `get_social_links`: one link per non-empty field; the Twitter link is
      built from the handle without its leading '@'s. */
  function SocialLinks(p: Profile): (links: map<string, string>)
    ensures links.Keys <= {"linkedin", "github", "twitter", "website"}
    ensures "linkedin" in links <==> p.linkedinUrl != ""
    ensures "github" in links <==> p.githubUsername != ""
    ensures "twitter" in links <==> p.twitterHandle != ""
    ensures "website" in links <==> p.website != ""
    ensures "linkedin" in links ==> links["linkedin"] == p.linkedinUrl
    ensures "github" in links ==> links["github"] == GITHUB_PREFIX + p.githubUsername
    ensures "twitter" in links ==> links["twitter"] == TWITTER_PREFIX + LStrip(p.twitterHandle, '@')
    ensures "website" in links ==> links["website"] == p.website
  {
    Links(p.linkedinUrl, p.githubUsername, p.twitterHandle, p.website)
  }

  function Links(linkedinUrl: string, githubUsername: string, twitterHandle: string, website: string): map<string, string>
  {
    var linkedin: map<string, string> := if linkedinUrl != "" then map["linkedin" := linkedinUrl] else map[];
    var github := if githubUsername != "" then linkedin["github" := GITHUB_PREFIX + githubUsername] else linkedin;
    var twitter := if twitterHandle != "" then github["twitter" := TWITTER_PREFIX + LStrip(twitterHandle, '@')] else github;
    if website != "" then twitter["website" := website] else twitter
  }

  lemma LStripTwice(s: string)
    ensures LStrip(LStrip(s, '@'), '@') == LStrip(s, '@')
  {
  }

  /** The write hook strips a handle's leading '@'s; the links are the same
      as with the handle as given, unless the handle was nothing but '@'s. */
  lemma HandleHookKeepsLinks(linkedinUrl: string, githubUsername: string, handle: string, website: string)
    requires LStrip(handle, '@') != ""
    ensures Links(linkedinUrl, githubUsername, LStrip(handle, '@'), website)
         == Links(linkedinUrl, githubUsername, handle, website)
  {
    LStripTwice(handle);
  }

  // ================================================================ constraints

  const ONE_PROFILE_PER_USER := "Each user can only have one profile"

  /** What every stored profile satisfies: the experience, phone and URL
      checks hold. */
  predicate Sound(p: Profile)
  {
    ExperienceError(p.yearsOfExperience).None? && PhoneError(p.phone).None? && UrlError(p).None?
  }

  /** The profiles of `user`. */
  function Holders(m: map<int, Profile>, user: int): set<int>
  {
    set id | id in m && m[id].userId == user
  }

  /** Some profile other than `id` belongs to `user`. */
  predicate Taken(m: map<int, Profile>, id: int, user: int)
  {
    exists other :: other in m && other != id && m[other].userId == user
  }

  /** No two profiles share a user. */
  predicate OnePerUser(m: map<int, Profile>)
  {
    forall a, b :: a in m && b in m && m[a].userId == m[b].userId ==> a == b
  }

  /** `_check_unique_user` counts the profiles of the user once the record is
      stored: more than one exactly when another profile has that user. */
  lemma HoldersAfterStore(m: map<int, Profile>, id: int, p: Profile)
    ensures |Holders(m[id := p], p.userId)| > 1 <==> Taken(m, id, p.userId)
  {
    var m' := m[id := p];
    var others := set k | k in m && k != id && m[k].userId == p.userId;
    assert Holders(m', p.userId) == {id} + others;
    assert id !in others;
    if Taken(m, id, p.userId) {
      var other :| other in m && other != id && m[other].userId == p.userId;
      assert {other} <= others;
      assert |others| >= 1;
    } else {
      assert others == {};
    }
  }

  /** Storing a profile whose user no other profile has keeps users unique. */
  lemma StoreKeepsOnePerUser(m: map<int, Profile>, id: int, p: Profile)
    requires OnePerUser(m)
    requires !Taken(m, id, p.userId)
    ensures OnePerUser(m[id := p])
  {
  }

  // ================================================================ vals

  datatype ProfileVals = ProfileVals(
    userId: Update<int>,
    bio: Update<string>,
    avatar: Update<string>,
    avatarUrl: Update<string>,
    phone: Update<string>,
    website: Update<string>,
    linkedinUrl: Update<string>,
    githubUsername: Update<string>,
    twitterHandle: Update<string>,
    jobTitle: Update<string>,
    company: Update<string>,
    yearsOfExperience: Update<int>,
    skills: Update<string>,
    interests: Update<string>,
    city: Update<string>,
    country: Update<string>,
    timezone: Update<TimezoneKey>,
    preferredLanguage: Update<LanguageKey>,
    emailNotifications: Update<bool>,
    newsletterSubscription: Update<bool>,
    profileViews: Update<int>,
    lastLogin: Update<Option<int>>,
    accountCreated: Update<Option<int>>,
    isVerified: Update<bool>,
    isActive: Update<bool>)

  const NO_VALS := ProfileVals(Keep, Keep, Keep, Keep, Keep, Keep, Keep, Keep, Keep, Keep, Keep, Keep, Keep,
                               Keep, Keep, Keep, Keep, Keep, Keep, Keep, Keep, Keep, Keep, Keep, Keep)

  /** The fields a `vals` dictionary may name. */
  const PROFILE_FIELDS: set<string> := {
    "user_id", "bio", "avatar", "avatar_url", "phone", "website", "linkedin_url", "github_username",
    "twitter_handle", "job_title", "company", "years_of_experience", "skills", "interests", "city",
    "country", "timezone", "preferred_language", "email_notifications", "newsletter_subscription",
    "profile_views", "last_login", "account_created", "is_verified", "is_active"}

  /** A selection accepts its own keys; a falsy value clears it. */
  function AsTimezone(key: string, v: Value): Result<TimezoneKey>
  {
    if v.Str? && v.s in TIMEZONES then Ok(v.s)
    else if !Truthy(v) then Ok("")
    else Err(WrongValue(key))
  }

  function AsLanguage(key: string, v: Value): Result<LanguageKey>
  {
    if v.Str? && v.s in LANGUAGES then Ok(v.s)
    else if !Truthy(v) then Ok("")
    else Err(WrongValue(key))
  }

  /** The ORM reading a `vals` dictionary: an unknown key raises, and each
      value is converted to its field's type, which raises only for a value
      that cannot be converted. */
  function DecodeVals(vals: map<string, Value>): (r: Result<ProfileVals>)
    ensures r.Ok? ==> vals.Keys <= PROFILE_FIELDS
    ensures r.Ok? ==> (r.value.userId.Put? <==> "user_id" in vals)
    ensures r.Ok? ==> (r.value.phone.Put? <==> "phone" in vals)
    ensures r.Ok? ==> (r.value.website.Put? <==> "website" in vals)
    ensures r.Ok? ==> (r.value.linkedinUrl.Put? <==> "linkedin_url" in vals)
    ensures r.Ok? ==> (r.value.twitterHandle.Put? <==> "twitter_handle" in vals)
    ensures r.Ok? ==> (r.value.yearsOfExperience.Put? <==> "years_of_experience" in vals)
    ensures r.Ok? ==> (r.value.accountCreated.Put? <==> "account_created" in vals)
    ensures r.Ok? ==> (r.value.avatar.Put? <==> "avatar" in vals)
    ensures r.Ok? ==> (r.value.profileViews.Put? <==> "profile_views" in vals)
    ensures r.Ok? ==> (r.value.lastLogin.Put? <==> "last_login" in vals)
    ensures r.Ok? ==> (r.value.isVerified.Put? <==> "is_verified" in vals)
    ensures r.Ok? ==> (r.value.isActive.Put? <==> "is_active" in vals)
  {
    if !(vals.Keys <= PROFILE_FIELDS) then Err("Invalid field on model api.user.profile")
    else
      var userId :- Field(vals, "user_id", AsRef);
      var bio :- Field(vals, "bio", AsText);
      var avatar :- Field(vals, "avatar", AsText);
      var avatarUrl :- Field(vals, "avatar_url", AsText);
      var phone :- Field(vals, "phone", AsText);
      var website :- Field(vals, "website", AsText);
      var linkedinUrl :- Field(vals, "linkedin_url", AsText);
      var github :- Field(vals, "github_username", AsText);
      var twitter :- Field(vals, "twitter_handle", AsText);
      var jobTitle :- Field(vals, "job_title", AsText);
      var company :- Field(vals, "company", AsText);
      var years :- Field(vals, "years_of_experience", AsInt);
      var skills :- Field(vals, "skills", AsText);
      var interests :- Field(vals, "interests", AsText);
      var city :- Field(vals, "city", AsText);
      var country :- Field(vals, "country", AsText);
      var timezone :- Field(vals, "timezone", AsTimezone);
      var language :- Field(vals, "preferred_language", AsLanguage);
      var notifications :- Field(vals, "email_notifications", AsBool);
      var newsletter :- Field(vals, "newsletter_subscription", AsBool);
      var views :- Field(vals, "profile_views", AsInt);
      var lastLogin :- Field(vals, "last_login", AsDate);
      var created :- Field(vals, "account_created", AsDate);
      var verified :- Field(vals, "is_verified", AsBool);
      var active :- Field(vals, "is_active", AsBool);
      Ok(ProfileVals(userId, bio, avatar, avatarUrl, phone, website, linkedinUrl, github, twitter,
                     jobTitle, company, years, skills, interests, city, country, timezone, language,
                     notifications, newsletter, views, lastLogin, created, verified, active))
  }

  /** `create` override: without an `account_created` entry the profile is
      stamped with the current time. */
  function CreateHook(vals: ProfileVals, now: int): (r: ProfileVals)
    ensures r.accountCreated == (if vals.accountCreated == Keep then Put(Some(now)) else vals.accountCreated)
    ensures r.(accountCreated := vals.accountCreated) == vals
  {
    if vals.accountCreated == Keep then vals.(accountCreated := Put(Some(now))) else vals
  }

  /** `write` override: a non-empty Twitter handle loses its leading '@'s. */
  function WriteHook(vals: ProfileVals): (r: ProfileVals)
    ensures r.twitterHandle.Put? <==> vals.twitterHandle.Put?
    ensures r.twitterHandle.Put? ==> r.twitterHandle.value == LStrip(vals.twitterHandle.value, '@')
    ensures r.(twitterHandle := vals.twitterHandle) == vals
  {
    if vals.twitterHandle.Put? && vals.twitterHandle.value != ""
    then vals.(twitterHandle := Put(LStrip(vals.twitterHandle.value, '@')))
    else vals
  }

  /** The `write` override reads the handle as given, before the ORM converts
      it: `.lstrip('@')` on a truthy value that is not text raises
      AttributeError. Text is stripped by `WriteHook`. */
  function HandleError(vals: map<string, Value>): (e: Option<string>)
    ensures e.Some? <==> "twitter_handle" in vals && Truthy(vals["twitter_handle"]) && !vals["twitter_handle"].Str?
    ensures e.Some? ==> e.value == "'" + TypeName(vals["twitter_handle"]) + "' object has no attribute 'lstrip'"
  {
    if "twitter_handle" in vals && Truthy(vals["twitter_handle"]) && !vals["twitter_handle"].Str?
    then Some("'" + TypeName(vals["twitter_handle"]) + "' object has no attribute 'lstrip'")
    else None
  }

  /** The record after the ORM stores `vals`. */
  function Apply(p: Profile, v: ProfileVals): Profile
  {
    Profile(v.userId.Or(p.userId), v.bio.Or(p.bio), v.avatar.Or(p.avatar), v.avatarUrl.Or(p.avatarUrl),
            v.phone.Or(p.phone), v.website.Or(p.website), v.linkedinUrl.Or(p.linkedinUrl),
            v.githubUsername.Or(p.githubUsername), v.twitterHandle.Or(p.twitterHandle),
            v.jobTitle.Or(p.jobTitle), v.company.Or(p.company), v.yearsOfExperience.Or(p.yearsOfExperience),
            v.skills.Or(p.skills), v.interests.Or(p.interests), v.city.Or(p.city), v.country.Or(p.country),
            v.timezone.Or(p.timezone), v.preferredLanguage.Or(p.preferredLanguage),
            v.emailNotifications.Or(p.emailNotifications), v.newsletterSubscription.Or(p.newsletterSubscription),
            v.profileViews.Or(p.profileViews), v.lastLogin.Or(p.lastLogin), v.accountCreated.Or(p.accountCreated),
            v.isVerified.Or(p.isVerified), v.isActive.Or(p.isActive))
  }

  /** The constraints the ORM checks once `stored[id]` is stored, in the
      order of their method names, only those whose fields were written. */
  function Check(stored: map<int, Profile>, id: int, vals: ProfileVals): Result<Profile>
    requires id in stored
  {
    var p := stored[id];
    if vals.yearsOfExperience.Put? && ExperienceError(p.yearsOfExperience).Some? then Err(ExperienceError(p.yearsOfExperience).value)
    else if vals.phone.Put? && PhoneError(p.phone).Some? then Err(PhoneError(p.phone).value)
    else if vals.userId.Put? && |Holders(stored, p.userId)| > 1 then Err(ONE_PROFILE_PER_USER)
    else if (vals.website.Put? || vals.linkedinUrl.Put?) && UrlError(p).Some? then Err(UrlError(p).value)
    else Ok(p)
  }

  /** The defaults of a new record: UTC, English, notifications on, no
      newsletter, no views, unverified, active. */
  function Defaults(now: int): Profile
  {
    Profile(0, "", "", "", "", "", "", "", "", "", "", 0, "", "", "", "", "UTC", "en",
            true, false, 0, None, Some(now), false, true)
  }

  /** `create(vals)` with the next id `id`: the hook, the defaults, then
      every constraint. The user is required. */
  function NewProfile(profiles: map<int, Profile>, id: int, vals: ProfileVals, now: int): (r: Result<Profile>)
    requires id !in profiles
    ensures r.Ok? ==> Sound(r.value) && !Taken(profiles, id, r.value.userId)
    ensures r.Ok? ==> r.value == Apply(Defaults(now), CreateHook(vals, now))
    ensures r.Ok? ==> r.value.accountCreated == if vals.accountCreated == Keep then Some(now) else vals.accountCreated.value
    ensures r.Ok? <==> vals.userId.Put? && Sound(Apply(Defaults(now), vals)) && !Taken(profiles, id, vals.userId.value)
  {
    if vals.userId == Keep then Err(MissingValue("user_id"))
    else
      var hooked := CreateHook(vals, now);
      var p := Apply(Defaults(now), hooked);
      HoldersAfterStore(profiles, id, p);
      Check(profiles[id := p], id,
            hooked.(yearsOfExperience := Put(p.yearsOfExperience), phone := Put(p.phone), website := Put(p.website)))
  }

  /** `write(vals)` on one stored profile: the hook, the update, the
      constraints of the written fields. */
  function WriteProfile(profiles: map<int, Profile>, id: int, vals: ProfileVals): (r: Result<Profile>)
    requires id in profiles && Sound(profiles[id])
    ensures r.Ok? ==> Sound(r.value)
    ensures r.Ok? ==> r.value == Apply(profiles[id], WriteHook(vals))
    ensures r.Ok? && vals.userId.Put? ==> !Taken(profiles, id, r.value.userId)
    ensures r.Err? <==> var q := Apply(profiles[id], WriteHook(vals));
      !Sound(q) || (vals.userId.Put? && Taken(profiles, id, q.userId))
  {
    var hooked := WriteHook(vals);
    var p := Apply(profiles[id], hooked);
    HoldersAfterStore(profiles, id, p);
    Check(profiles[id := p], id, hooked)
  }

  /** Writing a Twitter handle stores it without leading '@'s, while
      creating stores it as given. */
  lemma HandleStoredWithoutAt(profiles: map<int, Profile>, id: int, handle: string, now: int)
    requires id in profiles && Sound(profiles[id]) && handle != ""
    ensures WriteProfile(profiles, id, NO_VALS.(twitterHandle := Put(handle))).Ok?
    ensures var p := WriteProfile(profiles, id, NO_VALS.(twitterHandle := Put(handle))).value;
      p.twitterHandle == LStrip(handle, '@') && (p.twitterHandle == "" || p.twitterHandle[0] != '@')
  {
  }

  /** `profile_views += 1`, `write({'is_verified': True})` and
      `write({'last_login': now})`: fields without constraints. */
  function AddView(p: Profile): Profile { p.(profileViews := p.profileViews + 1) }
  function Verify(p: Profile): Profile { p.(isVerified := true) }
  function StampLogin(now: int): Profile -> Profile { (p: Profile) => p.(lastLogin := Some(now)) }

  /** A write that leaves the user, the Twitter handle and every checked
      field alone succeeds and stores exactly its values. */
  lemma UncheckedWrite(profiles: map<int, Profile>, id: int, vals: ProfileVals)
    requires id in profiles && Sound(profiles[id])
    requires vals.userId == Keep && vals.twitterHandle == Keep && vals.yearsOfExperience == Keep
    requires vals.phone == Keep && vals.website == Keep && vals.linkedinUrl == Keep
    ensures WriteProfile(profiles, id, vals) == Ok(Apply(profiles[id], vals))
  {
    var p, q := profiles[id], Apply(profiles[id], vals);
    assert WriteHook(vals) == vals;
    assert q.yearsOfExperience == p.yearsOfExperience && q.phone == p.phone;
    assert q.website == p.website && q.linkedinUrl == p.linkedinUrl;
    assert UrlError(q) == UrlError(p);
  }

  /** The three actions go through `write` and change only their own field. */
  lemma ViewIsWrite(profiles: map<int, Profile>, id: int)
    requires id in profiles && Sound(profiles[id])
    ensures WriteProfile(profiles, id, NO_VALS.(profileViews := Put(profiles[id].profileViews + 1))) == Ok(AddView(profiles[id]))
  {
    var p, vals := profiles[id], NO_VALS.(profileViews := Put(profiles[id].profileViews + 1));
    UncheckedWrite(profiles, id, vals);
    assert Apply(p, vals) == AddView(p);
  }

  lemma VerifyIsWrite(profiles: map<int, Profile>, id: int)
    requires id in profiles && Sound(profiles[id])
    ensures WriteProfile(profiles, id, NO_VALS.(isVerified := Put(true))) == Ok(Verify(profiles[id]))
  {
    UncheckedWrite(profiles, id, NO_VALS.(isVerified := Put(true)));
  }

  lemma LoginIsWrite(profiles: map<int, Profile>, id: int, now: int)
    requires id in profiles && Sound(profiles[id])
    ensures WriteProfile(profiles, id, NO_VALS.(lastLogin := Put(Some(now)))) == Ok(StampLogin(now)(profiles[id]))
  {
    UncheckedWrite(profiles, id, NO_VALS.(lastLogin := Put(Some(now))));
  }

  /** The actions keep every profile sound and every user unique. */
  lemma ActionsPreserve(m: map<int, Profile>, ids: set<int>, f: Profile -> Profile)
    requires forall p: Profile :: f(p).userId == p.userId && Sound(f(p)) == Sound(p)
    ensures UpdateAll(m, ids, f).Keys == m.Keys
    ensures (forall id :: id in m ==> Sound(m[id])) ==>
      forall id :: id in UpdateAll(m, ids, f) ==> Sound(UpdateAll(m, ids, f)[id])
    ensures OnePerUser(m) ==> OnePerUser(UpdateAll(m, ids, f))
  {
  }

  lemma ActionsKeepUserAndSoundness(now: int)
    ensures forall p: Profile :: AddView(p).userId == p.userId && Sound(AddView(p)) == Sound(p)
    ensures forall p: Profile :: Verify(p).userId == p.userId && Sound(Verify(p)) == Sound(p)
    ensures forall p: Profile :: StampLogin(now)(p).userId == p.userId && Sound(StampLogin(now)(p)) == Sound(p)
  {
  }

  /** The test of `search([('user_id', '=', user)])`. */
  function Owns(user: int): Profile -> bool
  {
    (p: Profile) => p.userId == user
  }

  /** The search for `user`'s profiles over the ids below `nextId` finds
      exactly the holders. */
  lemma SearchFindsHolders(m: map<int, Profile>, nextId: int, user: int)
    requires forall id :: id in m ==> 1 <= id < nextId
    ensures var found := Select(m, IdsIn(m, 1, nextId), Owns(user));
      && (forall k :: 0 <= k < |found| ==> found[k] in Holders(m, user))
      && (found == [] <==> Holders(m, user) == {})
  {
    var ids := IdsIn(m, 1, nextId);
    var found := Select(m, ids, Owns(user));
    if found == [] {
      forall id | id in m
        ensures id !in Holders(m, user)
      {
        assert id in ids;
        var k :| 0 <= k < |ids| && ids[k] == id;
        assert !Owns(user)(m[ids[k]]);
      }
    } else {
      assert Owns(user)(m[found[0]]);
      assert found[0] in Holders(m, user);
    }
  }

  /** The first profile of `user` in id order, among ids below `nextId`. */
  function FirstHolder(m: map<int, Profile>, nextId: int, user: int): (r: Option<int>)
    requires forall id :: id in m ==> 1 <= id < nextId
    ensures r.Some? ==> r.value in m && m[r.value].userId == user
    ensures r.None? <==> Holders(m, user) == {}
  {
    var found := Select(m, IdsIn(m, 1, nextId), Owns(user));
    SearchFindsHolders(m, nextId, user);
    if found == [] then None else Some(found[0])
  }

  // ================================================================ the store

  class ProfileStore {
    var profiles: map<int, Profile>
    var nextId: int

    ghost predicate Valid()
      reads this
    {
      && nextId >= 1
      && (forall id :: id in profiles ==> 1 <= id < nextId)
      && (forall id :: id in profiles ==> Sound(profiles[id]))
      && OnePerUser(profiles)
    }

    constructor ()
      ensures Valid() && profiles == map[]
    {
      profiles := map[];
      nextId := 1;
    }

    /** The ids of the stored profiles, ascending. */
    function Ids(): (ids: seq<int>)
      reads this
      ensures forall k :: 0 <= k < |ids| ==> ids[k] in profiles
      ensures forall id :: id in profiles && 1 <= id < nextId ==> id in ids
      ensures Increasing(ids)
    {
      IdsIn(profiles, 1, nextId)
    }

    /** `search([('user_id', '=', user)], limit=1)`. */
    function ProfileOf(user: int): (r: Option<int>)
      reads this
      requires Valid()
      ensures r.Some? ==> r.value in profiles && profiles[r.value].userId == user
      ensures r.None? <==> Holders(profiles, user) == {}
    {
      FirstHolder(profiles, nextId, user)
    }

    method Create(vals: ProfileVals, now: int) returns (r: Result<int>)
      requires Valid()
      modifies this
      ensures Valid()
      ensures r.Ok? <==> NewProfile(old(profiles), old(nextId), vals, now).Ok?
      ensures r.Ok? ==> r.value == old(nextId) && profiles == old(profiles)[r.value := NewProfile(old(profiles), old(nextId), vals, now).value]
      ensures nextId == if r.Ok? then old(nextId) + 1 else old(nextId)
      ensures r.Err? ==> profiles == old(profiles) && r.error == NewProfile(old(profiles), old(nextId), vals, now).error
    {
      var created := NewProfile(profiles, nextId, vals, now);
      if created.Err? {
        return Err(created.error);
      }
      StoreKeepsOnePerUser(profiles, nextId, created.value);
      r := Ok(nextId);
      profiles := profiles[nextId := created.value];
      nextId := nextId + 1;
    }

    method Write(id: int, vals: ProfileVals) returns (r: Result<()>)
      requires Valid() && id in profiles
      modifies this
      ensures Valid() && nextId == old(nextId)
      ensures r.Ok? <==> WriteProfile(old(profiles), id, vals).Ok?
      ensures r.Ok? ==> profiles == old(profiles)[id := WriteProfile(old(profiles), id, vals).value]
      ensures r.Err? ==> profiles == old(profiles) && r.error == WriteProfile(old(profiles), id, vals).error
    {
      var written := WriteProfile(profiles, id, vals);
      if written.Err? {
        return Err(written.error);
      }
      assert !Taken(profiles, id, written.value.userId) by {
        if !vals.userId.Put? {
          assert written.value.userId == profiles[id].userId;
        }
      }
      StoreKeepsOnePerUser(profiles, id, written.value);
      profiles := profiles[id := written.value];
      r := Ok(());
    }

    /** `action_increment_views`: one more view on each profile of the set. */
    method ActionIncrementViews(ids: set<int>)
      requires Valid() && ids <= profiles.Keys
      modifies this
      ensures Valid() && nextId == old(nextId)
      ensures profiles == UpdateAll(old(profiles), ids, AddView)
    {
      var todo := ids;
      while todo != {}
        invariant todo <= ids
        invariant nextId == old(nextId)
        invariant profiles == UpdateAll(old(profiles), ids - todo, AddView)
        decreases todo
      {
        ghost var member := Pick(todo);  // a member for the `:|` below
        var profile :| profile in todo;
        profiles := profiles[profile := AddView(profiles[profile])];
        UpdateOneMore(old(profiles), ids - todo, profile, AddView);
        todo := todo - {profile};
      }
      ActionsKeepUserAndSoundness(0);
      ActionsPreserve(old(profiles), ids, AddView);
    }

    /** `action_verify_account`: one write over the whole set. */
    method ActionVerifyAccount(ids: set<int>)
      requires Valid()
      modifies this
      ensures Valid() && nextId == old(nextId)
      ensures profiles == UpdateAll(old(profiles), ids, Verify)
    {
      ActionsKeepUserAndSoundness(0);
      ActionsPreserve(profiles, ids, Verify);
      profiles := UpdateAll(profiles, ids, Verify);
    }

    /** `action_update_last_login`: one write over the whole set. */
    method ActionUpdateLastLogin(ids: set<int>, now: int)
      requires Valid()
      modifies this
      ensures Valid() && nextId == old(nextId)
      ensures profiles == UpdateAll(old(profiles), ids, StampLogin(now))
    {
      ActionsKeepUserAndSoundness(now);
      ActionsPreserve(profiles, ids, StampLogin(now));
      profiles := UpdateAll(profiles, ids, StampLogin(now));
    }
  }
}
