/** The blog post record (`api.blog.post`): its derived fields (slug,
    excerpt, reading time), its constraints, the create and write hooks that
    stamp the publication date, the delete guard, and the counter actions.
    The store of posts is a class over a map from id to record. */
module BlogPostModel {
  import opened Common
  import opened Text
  import opened Fields

  datatype PostStatus = Draft | Published | Archived

  function StatusName(s: PostStatus): (name: string)
    ensures ParseStatus(name) == Some(s)
  {
    match s
    case Draft => "draft"
    case Published => "published"
    case Archived => "archived"
  }

  /** The selection's keys; any other text is not a status. */
  function ParseStatus(name: string): Option<PostStatus>
  {
    if name == "draft" then Some(Draft)
    else if name == "published" then Some(Published)
    else if name == "archived" then Some(Archived)
    else None
  }

  /** A stored post. Text fields hold "" where the record holds False;
      dates are second numbers. */
  datatype Post = Post(
    title: string,
    content: string,
    authorId: int,
    publishedDate: Option<int>,
    status: PostStatus,
    isFeatured: bool,
    viewCount: int,
    likeCount: int,
    tags: string)

  // ================================================================ slug

  predicate SlugKept(c: char) { IsAlnum(c) || IsSpace(c) }

  /** `_compute_slug`: lower-case the title, keep letters, digits and
      whitespace, and join the whitespace-separated words with '-'. A missing
      title gives no slug. */
  function Slug(title: string): Option<string>
  {
    if title == "" then None
    else Some(Join(Words(Filter(Lower(title), SlugKept)), "-"))
  }

  predicate SlugChar(c: char) { IsLower(c) || IsDigit(c) || c == '-' }

  /** A well-formed slug: lower-case letters, digits and single hyphens
      between them. */
  predicate WellFormedSlug(s: string)
  {
    && (forall k :: 0 <= k < |s| ==> SlugChar(s[k]))
    && (s != [] ==> s[0] != '-' && s[|s| - 1] != '-')
    && (forall k :: 0 <= k < |s| - 1 ==> !(s[k] == '-' && s[k + 1] == '-'))
  }

  predicate SlugWord(w: string)
  {
    w != [] && forall k :: 0 <= k < |w| ==> IsLower(w[k]) || IsDigit(w[k])
  }

  lemma {:induction false} JoinWellFormed(ws: seq<string>)
    requires forall k :: 0 <= k < |ws| ==> SlugWord(ws[k])
    ensures WellFormedSlug(Join(ws, "-"))
    ensures Join(ws, "-") == [] <==> ws == []
  {
    if |ws| >= 2 {
      JoinWellFormed(ws[1..]);
      var w, rest := ws[0], Join(ws[1..], "-");
      var s := w + "-" + rest;
      assert Join(ws, "-") == s;
      assert SlugWord(ws[1]);
      assert rest != [] && rest[0] != '-';
      forall k | 0 <= k < |s| - 1 ensures !(s[k] == '-' && s[k + 1] == '-') {
        if k < |w| {
          assert s[k] == w[k];
        } else if k > |w| {
          assert s[k] == rest[k - |w| - 1] && s[k + 1] == rest[k - |w|];
        }
      }
      forall k | 0 <= k < |s| ensures SlugChar(s[k]) {
        if k < |w| {
          assert s[k] == w[k];
        } else if k > |w| {
          assert s[k] == rest[k - |w| - 1];
        }
      }
      assert s[|s| - 1] == rest[|rest| - 1];
    }
  }

  /** Lower-casing leaves no upper-case letter behind. */
  lemma LowerHasNoUpper(s: string, c: char)
    requires c in Lower(s)
    ensures !IsUpper(c)
  {
    var k :| 0 <= k < |s| && Lower(s)[k] == c;
  }

  /** The words of the cleaned, lower-cased title are slug words. */
  lemma {:induction false} SlugWords(title: string)
    ensures forall k :: 0 <= k < |Words(Filter(Lower(title), SlugKept))| ==>
      SlugWord(Words(Filter(Lower(title), SlugKept))[k])
  {
    var cleaned := Filter(Lower(title), SlugKept);
    var ws := Words(cleaned);
    WordsChars(cleaned);
    forall k | 0 <= k < |ws| ensures SlugWord(ws[k]) {
      forall j | 0 <= j < |ws[k]| ensures IsLower(ws[k][j]) || IsDigit(ws[k][j]) {
        var c := ws[k][j];
        assert c in ws[k];
        assert c in cleaned && !IsSpace(c);
        LowerHasNoUpper(title, c);
      }
    }
  }

  /** A slug consists of lower-case letters and digits in hyphen-separated
      groups: no leading, trailing or doubled hyphen. */
  lemma SlugShape(title: string)
    ensures Slug(title).None? <==> title == ""
    ensures Slug(title).Some? ==> WellFormedSlug(Slug(title).value)
  {
    SlugWords(title);
    JoinWellFormed(Words(Filter(Lower(title), SlugKept)));
  }

  lemma SlugWordAlnum(w: string)
    requires SlugWord(w)
    ensures Filter(w, IsAlnum) == w
  {
    forall c | c in w ensures IsAlnum(c) {
      var k :| 0 <= k < |w| && w[k] == c;
    }
    FilterAll(w, IsAlnum);
  }

  lemma JoinCons(ws: seq<string>)
    requires |ws| >= 2
    ensures Join(ws, "-") == (ws[0] + "-") + Join(ws[1..], "-")
  {
  }

  lemma ConcatCons(ws: seq<string>)
    requires |ws| >= 1
    ensures Concat(ws) == ws[0] + Concat(ws[1..])
  {
  }

  lemma FilterHyphen(w: string)
    ensures Filter(w + "-", IsAlnum) == Filter(w, IsAlnum)
  {
    FilterAppend(w, "-", IsAlnum);
    assert Filter("-", IsAlnum) == [];
  }

  lemma {:induction false} FilterAlnumJoin(ws: seq<string>)
    requires forall k :: 0 <= k < |ws| ==> SlugWord(ws[k])
    ensures Filter(Join(ws, "-"), IsAlnum) == Concat(ws)
  {
    if ws == [] {
    } else if |ws| == 1 {
      SlugWordAlnum(ws[0]);
      ConcatCons(ws);
    } else {
      JoinCons(ws);
      FilterAppend(ws[0] + "-", Join(ws[1..], "-"), IsAlnum);
      FilterHyphen(ws[0]);
      SlugWordAlnum(ws[0]);
      FilterAlnumJoin(ws[1..]);
      ConcatCons(ws);
    }
  }

  lemma {:induction false} FilterTwice(s: string)
    ensures Filter(Filter(s, SlugKept), NonSpace) == Filter(s, IsAlnum)
  {
    if s != [] {
      FilterTwice(s[1..]);
      if SlugKept(s[0]) {
        assert Filter(s, SlugKept) == [s[0]] + Filter(s[1..], SlugKept);
        FilterAppend([s[0]], Filter(s[1..], SlugKept), NonSpace);
        assert [s[0]][1..] == [];
        assert Filter([s[0]], NonSpace) == if IsAlnum(s[0]) then [s[0]] else [];
      } else {
        assert Filter(s, SlugKept) == Filter(s[1..], SlugKept);
      }
    }
  }

  /** The slug keeps every letter and digit of the title, lower-cased and in
      order, and nothing else but hyphens. */
  lemma SlugKeepsLettersAndDigits(title: string)
    requires title != ""
    ensures Filter(Slug(title).value, IsAlnum) == Filter(Lower(title), IsAlnum)
  {
    var cleaned := Filter(Lower(title), SlugKept);
    SlugWords(title);
    FilterAlnumJoin(Words(cleaned));
    WordsConcat(cleaned);
    FilterTwice(Lower(title));
  }

  /** The worked example of the design: "Hello, World! 2024" becomes
      "hello-world-2024". */
  lemma SlugExample()
    ensures Slug("Hello, World! 2024") == Some("hello-world-2024")
  {
    ExampleLowered();
    ExampleCleaned();
    ExampleWords();
    ExampleJoined();
    SlugSteps("Hello, World! 2024", "hello" + " world" + " 2024", ["hello", "world", "2024"]);
  }

  /** The slug of a title whose cleaned text splits into known words. */
  lemma SlugSteps(title: string, cleaned: string, words: seq<string>)
    requires title != ""
    requires Filter(Lower(title), SlugKept) == cleaned
    requires Words(cleaned) == words
    ensures Slug(title) == Some(Join(words, "-"))
  {
  }

  lemma ExampleJoined()
    ensures Join(["hello", "world", "2024"], "-") == "hello-world-2024"
  {
  }

  lemma ExampleLowered()
    ensures Lower("Hello, World! 2024") == ("hello" + ",") + ((" world" + "!") + " 2024")
  {
  }

  lemma KeptUnchanged(s: string)
    requires forall k :: 0 <= k < |s| ==> SlugKept(s[k])
    ensures Filter(s, SlugKept) == s
  {
    forall c | c in s ensures SlugKept(c) {
      var k :| 0 <= k < |s| && s[k] == c;
    }
    FilterAll(s, SlugKept);
  }

  lemma KeptThenDropped(a: string, c: char)
    requires forall k :: 0 <= k < |a| ==> SlugKept(a[k])
    requires !SlugKept(c)
    ensures Filter(a + [c], SlugKept) == a
  {
    FilterAppend(a, [c], SlugKept);
    KeptUnchanged(a);
    assert [c][1..] == [];
  }

  lemma ExampleCleaned()
    ensures Filter(("hello" + ",") + ((" world" + "!") + " 2024"), SlugKept) == "hello" + " world" + " 2024"
  {
    KeptThenDropped("hello", ',');
    ExampleCleanedTail();
    FilterAppend("hello" + ",", (" world" + "!") + " 2024", SlugKept);
  }

  lemma ExampleCleanedTail()
    ensures Filter((" world" + "!") + " 2024", SlugKept) == " world" + " 2024"
  {
    KeptThenDropped(" world", '!');
    ExampleYear();
    FilterAppend(" world" + "!", " 2024", SlugKept);
  }

  lemma ExampleYear()
    ensures Filter(" 2024", SlugKept) == " 2024"
  {
    KeptUnchanged(" 2024");
  }

  lemma WordsAfterSpace(c: char, s: string)
    requires IsSpace(c)
    ensures Words([c] + s) == Words(s)
  {
    assert ([c] + s)[1..] == s;
  }

  /** Three words separated by single blanks split back into the three. */
  lemma ThreeWords(a: string, b: string, c: string)
    requires a != [] && forall k :: 0 <= k < |a| ==> !IsSpace(a[k])
    requires b != [] && forall k :: 0 <= k < |b| ==> !IsSpace(b[k])
    requires c != [] && forall k :: 0 <= k < |c| ==> !IsSpace(c[k])
    ensures Words(a + ([' '] + b) + ([' '] + c)) == [a, b, c]
  {
    assert Words([' '] + c) == [c] by {
      WordsCons(c, "");
      assert c + "" == c;
      WordsAfterSpace(' ', c);
    }
    assert Words([' '] + (b + ([' '] + c))) == [b, c] by {
      WordsCons(b, [' '] + c);
      WordsAfterSpace(' ', b + ([' '] + c));
    }
    assert a + ([' '] + b) + ([' '] + c) == a + ([' '] + (b + ([' '] + c)));
    WordsCons(a, [' '] + (b + ([' '] + c)));
  }

  lemma ExampleWords()
    ensures Words("hello" + " world" + " 2024") == ["hello", "world", "2024"]
  {
    ThreeWords("hello", "world", "2024");
    assert " world" == [' '] + "world";
    assert " 2024" == [' '] + "2024";
  }

  /** A slug is not its own slug: its hyphens are neither letters, digits nor
      whitespace, so slugging "hello-world" glues the words together. */
  lemma SlugOfSlug()
    ensures Slug("hello-world") == Some("helloworld")
  {
    HyphenLowered();
    HyphenCleaned();
    GluedWords();
  }

  lemma HyphenLowered()
    ensures Lower("hello-world") == ("hello" + "-") + "world"
  {
  }

  lemma HyphenCleaned()
    ensures Filter(("hello" + "-") + "world", SlugKept) == "hello" + "world"
  {
    KeptThenDropped("hello", '-');
    WorldKept();
    FilterAppend("hello" + "-", "world", SlugKept);
  }

  lemma WorldKept()
    ensures Filter("world", SlugKept) == "world"
  {
    KeptUnchanged("world");
  }

  lemma GluedWords()
    ensures Words("hello" + "world") == ["helloworld"]
  {
    WordsCons("hello" + "world", "");
    assert "hello" + "world" + "" == "hello" + "world";
    assert "hello" + "world" == "helloworld";
  }

  // ================================================================ excerpt and reading time

  /** Where the tag that `<[^<]+?>` matches at the start of `s` closes,
      scanning from `k`: the first `>` at index 2 or later, provided no `<`
      comes first (the index-1 character may itself be `>`). */
  function TagClose(s: string, k: nat): (j: Option<nat>)
    requires 1 <= k
    decreases |s| - k
    ensures j.Some? ==> 2 <= j.value < |s| && k <= j.value && s[j.value] == '>'
    ensures j.Some? ==> forall i :: k <= i < j.value ==> s[i] != '<'
  {
    if k >= |s| || s[k] == '<' then None
    else if s[k] == '>' && k >= 2 then Some(k)
    else TagClose(s, k + 1)
  }

  /** `re.sub('<[^<]+?>', '', s)`: one left-to-right pass that removes each
      shortest `<...>` run holding no inner `<`. */
  function StripTags(s: string): (r: string)
    ensures |r| <= |s|
    ensures forall c :: c in r ==> c in s
    decreases |s|
  {
    if s == [] then []
    else if s[0] == '<' && TagClose(s, 1).Some? then
      var r := StripTags(s[TagClose(s, 1).value + 1..]);
      assert forall c :: c in r ==> c in s[TagClose(s, 1).value + 1..];
      r
    else
      var r := [s[0]] + StripTags(s[1..]);
      assert forall c :: c in r ==> c == s[0] || c in s[1..];
      r
  }

  /** Text without `<` has no tag to strip. */
  lemma {:induction false} StripTagsPlain(s: string)
    requires '<' !in s
    ensures StripTags(s) == s
  {
    if s != [] {
      assert '<' !in s[1..];
      StripTagsPlain(s[1..]);
    }
  }

  /** An element holding plain text, `<name>text</name>` such as
      `<p>Hello World</p>`, is stripped to its text. */
  lemma StripElement(name: string, text: string)
    requires name != [] && '<' !in name && '>' !in name
    requires '<' !in text
    ensures StripTags("<" + name + ">" + text + ("</" + name + ">")) == text
  {
    var open := "<" + name + ">";
    var close := "</" + name + ">";
    assert open + text + close == open + (text + close);
    StripTag(open, text + close);
    StripTagsPrefix(text, close);
    StripTag(close, []);
    assert close + [] == close;
  }

  /** A leading tag `<...>` with no `<` or `>` inside vanishes. */
  lemma StripTag(tag: string, rest: string)
    requires |tag| >= 3 && tag[0] == '<' && tag[|tag| - 1] == '>'
    requires forall i :: 1 <= i < |tag| - 1 ==> tag[i] != '<' && tag[i] != '>'
    ensures StripTags(tag + rest) == StripTags(rest)
  {
    var s := tag + rest;
    TagCloseSkips(s, 1, |tag| - 1);
    assert s[|tag|..] == rest;
  }

  /** The scan for a tag's end passes over characters other than `<` and
      `>` up to the first `>`. */
  lemma {:induction false} TagCloseSkips(s: string, k: nat, j: nat)
    requires 1 <= k <= j < |s| && 2 <= j && s[j] == '>'
    requires forall i :: k <= i < j ==> s[i] != '<' && s[i] != '>'
    ensures TagClose(s, k) == Some(j)
    decreases j - k
  {
    if k < j {
      TagCloseSkips(s, k + 1, j);
    }
  }

  lemma {:induction false} StripTagsPrefix(plain: string, rest: string)
    requires '<' !in plain
    ensures StripTags(plain + rest) == plain + StripTags(rest)
  {
    if plain != [] {
      assert plain[0] in plain;
      assert (plain + rest)[0] == plain[0];
      assert (plain + rest)[1..] == plain[1..] + rest;
      assert '<' !in plain[1..];
      StripTagsPrefix(plain[1..], rest);
      assert StripTags(plain + rest) == [plain[0]] + StripTags(plain[1..] + rest);
      assert [plain[0]] + (plain[1..] + StripTags(rest)) == plain + StripTags(rest);
    } else {
      assert plain + rest == rest;
    }
  }

  /** One pass can leave a tag behind: removing `<a>` from `<<a>b>` joins the
      outer `<` to `b>`. */
  lemma StripTagsSinglePass()
    ensures StripTags("<<a>b>") == "<b>"
  {
    var s := "<<a>b>";
    assert TagClose(s, 1) == None;
    var t := "<a>b>";
    assert s[1..] == t;
    assert TagClose(t, 1) == Some(2);
    assert t[3..] == "b>";
    StripTagsPlain("b>");
  }

  const EXCERPT_LENGTH := 200

  /** `_compute_excerpt`: the tag-stripped text cut at 200 characters, with
      "..." when it was longer; empty content gives "". */
  function Excerpt(content: string): (r: string)
    ensures |r| <= EXCERPT_LENGTH + 3
    ensures content == "" ==> r == ""
    ensures content != "" && |StripTags(content)| <= EXCERPT_LENGTH ==> r == StripTags(content)
    ensures content != "" && |StripTags(content)| > EXCERPT_LENGTH ==>
      r == StripTags(content)[..EXCERPT_LENGTH] + "..."
  {
    if content == "" then ""
    else
      var clean := StripTags(content);
      if |clean| > EXCERPT_LENGTH then clean[..EXCERPT_LENGTH] + "..." else clean
  }

  /** Content with no markup and at most 200 characters is its own excerpt. */
  lemma ExcerptOfShortPlainText(content: string)
    requires '<' !in content && |content| <= EXCERPT_LENGTH
    ensures Excerpt(content) == content
  {
    StripTagsPlain(content);
  }

  const WORDS_PER_MINUTE := 200

  /** `_compute_reading_time`: a minute per 200 words of tag-stripped text,
      at least one minute for any content, none for empty content. */
  function ReadingTime(content: string): (minutes: nat)
  {
    if content == "" then 0
    else
      var words := |Words(StripTags(content))|;
      if words / WORDS_PER_MINUTE > 1 then words / WORDS_PER_MINUTE else 1
  }

  /** Reading time is 0 exactly for empty content; otherwise it is at least
      one minute and the whole minutes of 200 words each when there are
      400 words or more. */
  lemma ReadingTimeBounds(content: string)
    ensures ReadingTime(content) == 0 <==> content == ""
    ensures content != "" ==>
      var words := |Words(StripTags(content))|;
      && ReadingTime(content) >= 1
      && ReadingTime(content) * WORDS_PER_MINUTE <= (if words < WORDS_PER_MINUTE then WORDS_PER_MINUTE else words)
      && (words >= 2 * WORDS_PER_MINUTE ==> words < (ReadingTime(content) + 1) * WORDS_PER_MINUTE)
  {
  }

  /** Content that is nothing but markup still reads in one minute. */
  lemma ReadingTimeOfMarkupOnly()
    ensures ReadingTime("<br>") == 1
  {
    var s := "<br>";
    assert TagClose(s, 1) == Some(3);
    assert s[4..] == [];
    assert StripTags(s) == [];
  }

  // ================================================================ constraints

  const TITLE_TOO_SHORT := "Title must be at least 5 characters long"
  const NEGATIVE_COUNTS := "Counts cannot be negative"

  /** `_check_title_length`: a non-empty title shorter than 5 characters. */
  function TitleError(title: string): (e: Option<string>)
    ensures e.Some? <==> title != "" && |title| < 5
    ensures e.Some? ==> e.value == TITLE_TOO_SHORT
  {
    if title != "" && |title| < 5 then Some(TITLE_TOO_SHORT) else None
  }

  /** `_check_positive_counts`. */
  function CountsError(p: Post): (e: Option<string>)
    ensures e.None? <==> p.viewCount >= 0 && p.likeCount >= 0
  {
    if p.viewCount < 0 || p.likeCount < 0 then Some(NEGATIVE_COUNTS) else None
  }

  /** What every stored post satisfies: both constraints hold. */
  predicate Sound(p: Post)
  {
    CountsError(p).None? && TitleError(p.title).None?
  }

  /** Published posts carry a publication date. */
  predicate Dated(p: Post)
  {
    p.status == Published ==> p.publishedDate.Some?
  }

  // ================================================================ vals, create and write

  /** A typed `vals` dictionary for the post model. */
  datatype PostVals = PostVals(
    title: Update<string>,
    content: Update<string>,
    authorId: Update<int>,
    publishedDate: Update<Option<int>>,
    status: Update<PostStatus>,
    isFeatured: Update<bool>,
    viewCount: Update<int>,
    likeCount: Update<int>,
    tags: Update<string>)

  const NO_VALS := PostVals(Keep, Keep, Keep, Keep, Keep, Keep, Keep, Keep, Keep)

  const POST_FIELDS: set<string> := {"title", "content", "author_id", "published_date", "status",
                                    "is_featured", "view_count", "like_count", "tags"}

  /** The status is a required selection: a falsy value leaves it unset,
      which raises. */
  function AsStatus(key: string, v: Value): Result<PostStatus>
  {
    if v.Str? && ParseStatus(v.s).Some? then Ok(ParseStatus(v.s).value)
    else if !Truthy(v) then Err(MissingValue(key))
    else Err(WrongValue(key))
  }

  /** The ORM reading a `vals` dictionary: an unknown key raises, each
      value is converted to its field's type (which raises only for a value
      that cannot be converted), and every key present becomes a `Put`. */
  function DecodeVals(vals: map<string, Value>): (r: Result<PostVals>)
    ensures r.Ok? ==> vals.Keys <= POST_FIELDS
    ensures r.Ok? ==> var pv := r.value;
      && (pv.title.Put? <==> "title" in vals) && (pv.content.Put? <==> "content" in vals)
      && (pv.authorId.Put? <==> "author_id" in vals) && (pv.publishedDate.Put? <==> "published_date" in vals)
      && (pv.status.Put? <==> "status" in vals) && (pv.isFeatured.Put? <==> "is_featured" in vals)
      && (pv.viewCount.Put? <==> "view_count" in vals) && (pv.likeCount.Put? <==> "like_count" in vals)
      && (pv.tags.Put? <==> "tags" in vals)
  {
    if !(vals.Keys <= POST_FIELDS) then Err("Invalid field on model api.blog.post")
    else
      var title :- Field(vals, "title", AsRequiredText);
      var content :- Field(vals, "content", AsRequiredText);
      var author :- Field(vals, "author_id", AsRef);
      var date :- Field(vals, "published_date", AsDate);
      var status :- Field(vals, "status", AsStatus);
      var featured :- Field(vals, "is_featured", AsBool);
      var views :- Field(vals, "view_count", AsInt);
      var likes :- Field(vals, "like_count", AsInt);
      var tags :- Field(vals, "tags", AsText);
      Ok(PostVals(title, content, author, date, status, featured, views, likes, tags))
  }

  /** The author and status a successful decoding reads from `vals`. */
  lemma DecodedStamps(vals: map<string, Value>)
    requires DecodeVals(vals).Ok?
    ensures "author_id" in vals ==> DecodeVals(vals).value.authorId == Put(AsRef("author_id", vals["author_id"]).value)
    ensures "status" in vals ==> DecodeVals(vals).value.status == Put(AsStatus("status", vals["status"]).value)
  {
    var title := Field(vals, "title", AsRequiredText);
    var content := Field(vals, "content", AsRequiredText);
    var author := Field(vals, "author_id", AsRef);
    var date := Field(vals, "published_date", AsDate);
    var status := Field(vals, "status", AsStatus);
    assert title.Ok? && content.Ok? && author.Ok? && date.Ok? && status.Ok?;
    var r := DecodeVals(vals).value;
    assert r.authorId == author.value && r.status == status.value;
  }

  /** `create` override: a post created as published without a (truthy)
      date is stamped with the current time. */
  function CreateHook(vals: PostVals, now: int): (r: PostVals)
    ensures vals.status == Put(Published) && vals.publishedDate in {Keep, Put(None)} ==>
      r == vals.(publishedDate := Put(Some(now)))
    ensures !(vals.status == Put(Published) && vals.publishedDate in {Keep, Put(None)}) ==> r == vals
  {
    if vals.status == Put(Published) && (vals.publishedDate == Keep || vals.publishedDate == Put(None))
    then vals.(publishedDate := Put(Some(now)))
    else vals
  }

  /** `write` override: moving a post that is not published into
      `published` stamps the current time over any date in `vals`. */
  function WriteHook(current: Post, vals: PostVals, now: int): (r: PostVals)
    ensures vals.status == Put(Published) && current.status != Published ==>
      r == vals.(publishedDate := Put(Some(now)))
    ensures !(vals.status == Put(Published) && current.status != Published) ==> r == vals
  {
    if vals.status == Put(Published) && current.status != Published
    then vals.(publishedDate := Put(Some(now)))
    else vals
  }

  /** The record after the ORM stores `vals`. */
  function Apply(p: Post, vals: PostVals): Post
  {
    Post(vals.title.Or(p.title), vals.content.Or(p.content), vals.authorId.Or(p.authorId),
         vals.publishedDate.Or(p.publishedDate), vals.status.Or(p.status),
         vals.isFeatured.Or(p.isFeatured), vals.viewCount.Or(p.viewCount),
         vals.likeCount.Or(p.likeCount), vals.tags.Or(p.tags))
  }

  /** The constraints the ORM checks after storing `vals`, in the order of
      their method names: only those whose fields were written (all of them
      on create). */
  function Check(p: Post, vals: PostVals): Result<Post>
  {
    if (vals.viewCount.Put? || vals.likeCount.Put?) && CountsError(p).Some? then Err(CountsError(p).value)
    else if vals.title.Put? && TitleError(p.title).Some? then Err(TitleError(p.title).value)
    else Ok(p)
  }

  /** The defaults of a new record: the acting user as author, the current
      time as publication date, draft, not featured, no views, no likes. */
  function Defaults(actor: int, now: int): Post
  {
    Post("", "", actor, Some(now), Draft, false, 0, 0, "")
  }

  /** `create(vals)`: the hook, then the defaults for what `vals` leaves out,
      then the constraints. Title and content are required and have no
      default. */
  function NewPost(vals: PostVals, actor: int, now: int): (r: Result<Post>)
    ensures r.Ok? ==> Sound(r.value) && Dated(r.value)
    ensures r.Ok? ==> r.value.status == vals.status.Or(Draft) && r.value.authorId == vals.authorId.Or(actor)
    ensures r.Ok? && vals.publishedDate == Keep ==> r.value.publishedDate == Some(now)
    ensures r.Ok? && vals.status == Put(Published) && !(vals.publishedDate.Put? && vals.publishedDate.value.Some?) ==>
      r.value.publishedDate == Some(now)
    ensures r.Ok? <==> (vals.title.Put? && vals.content.Put?
      && TitleError(vals.title.value).None? && vals.viewCount.Or(0) >= 0 && vals.likeCount.Or(0) >= 0)
  {
    if vals.title == Keep then Err(MissingValue("title"))
    else if vals.content == Keep then Err(MissingValue("content"))
    else
      var hooked := CreateHook(vals, now);
      Check(Apply(Defaults(actor, now), hooked), hooked.(viewCount := Put(hooked.viewCount.Or(0))))
  }

  /** `write(vals)` on one stored post: the hook, the update, the constraints. */
  function WritePost(p: Post, vals: PostVals, now: int): (r: Result<Post>)
    requires Sound(p)
    ensures r.Ok? ==> Sound(r.value)
    ensures r.Ok? ==> r.value == Apply(p, WriteHook(p, vals, now))
    ensures r.Ok? && vals.status == Put(Published) && p.status != Published ==> r.value.publishedDate == Some(now)
    ensures r.Ok? && p.status == Published && vals.publishedDate == Keep ==> r.value.publishedDate == p.publishedDate
    ensures Dated(p) && vals.publishedDate == Keep && r.Ok? ==> Dated(r.value)
    ensures r.Err? <==> var q := Apply(p, vals); TitleError(q.title).Some? || CountsError(q).Some?
  {
    var hooked := WriteHook(p, vals, now);
    Check(Apply(p, hooked), hooked)
  }

  /** `action_publish`: status published, dated now. */
  function PublishVals(now: int): PostVals
  {
    NO_VALS.(status := Put(Published), publishedDate := Put(Some(now)))
  }

  /** `action_archive_post`. */
  const ARCHIVE_VALS := NO_VALS.(status := Put(Archived))

  lemma PublishAndArchive(p: Post, now: int)
    requires Sound(p)
    ensures WritePost(p, PublishVals(now), now) == Ok(p.(status := Published, publishedDate := Some(now)))
    ensures WritePost(p, ARCHIVE_VALS, now) == Ok(p.(status := Archived))
  {
  }

  /** `record.like_count += 1` and `record.view_count += 1` go through
      `write`; the hook leaves them alone, so each adds exactly one to its own
      counter and changes nothing else. */
  lemma CounterWrites(p: Post, now: int)
    requires Sound(p)
    ensures WritePost(p, NO_VALS.(likeCount := Put(p.likeCount + 1)), now) == Ok(p.(likeCount := p.likeCount + 1))
    ensures WritePost(p, NO_VALS.(viewCount := Put(p.viewCount + 1)), now) == Ok(p.(viewCount := p.viewCount + 1))
  {
  }

  /** `unlink`'s guard: a set of posts may be deleted only when none of them
      is published. */
  predicate Deletable(posts: map<int, Post>, ids: set<int>)
  {
    forall id :: id in ids && id in posts ==> posts[id].status != Published
  }

  const CANNOT_DELETE_PUBLISHED := "Cannot delete published posts. Archive them first."

  /** `record.view_count += 1` and `record.like_count += 1`. */
  function AddView(p: Post): Post { p.(viewCount := p.viewCount + 1) }
  function AddLike(p: Post): Post { p.(likeCount := p.likeCount + 1) }

  /** Adding a view or a like keeps a post sound and dated, and the update
      keeps the same posts. */
  lemma UpdatePreserves(posts: map<int, Post>, ids: set<int>, f: Post -> Post)
    requires f == AddView || f == AddLike
    ensures UpdateAll(posts, ids, f).Keys == posts.Keys
    ensures (forall id :: id in posts ==> Sound(posts[id])) ==>
      forall id :: id in UpdateAll(posts, ids, f) ==> Sound(UpdateAll(posts, ids, f)[id])
    ensures (forall id :: id in posts ==> Dated(posts[id])) ==>
      forall id :: id in UpdateAll(posts, ids, f) ==> Dated(UpdateAll(posts, ids, f)[id])
  {
  }

  // ================================================================ the store

  class PostStore {
    var posts: map<int, Post>
    var nextId: int

    ghost predicate Valid()
      reads this
    {
      && nextId >= 1
      && (forall id :: id in posts ==> 1 <= id < nextId)
      && (forall id :: id in posts ==> Sound(posts[id]))
    }

    /** Published posts are dated throughout the store. */
    ghost predicate AllDated()
      reads this
    {
      forall id :: id in posts ==> Dated(posts[id])
    }

    constructor ()
      ensures Valid() && AllDated() && posts == map[]
    {
      posts := map[];
      nextId := 1;
    }

    /** The ids of the stored posts, ascending. */
    function Ids(): (ids: seq<int>)
      reads this
      ensures forall k :: 0 <= k < |ids| ==> ids[k] in posts
      ensures forall id :: id in posts && 1 <= id < nextId ==> id in ids
      ensures Increasing(ids)
    {
      IdsIn(posts, 1, nextId)
    }

    method Create(vals: PostVals, actor: int, now: int) returns (r: Result<int>)
      requires Valid()
      modifies this
      ensures Valid()
      ensures r.Ok? <==> NewPost(vals, actor, now).Ok?
      ensures r.Ok? ==> r.value !in old(posts) && posts == old(posts)[r.value := NewPost(vals, actor, now).value]
      ensures r.Err? ==> posts == old(posts) && r.error == NewPost(vals, actor, now).error
      ensures old(AllDated()) ==> AllDated()
    {
      var created := NewPost(vals, actor, now);
      if created.Err? {
        return Err(created.error);
      }
      r := Ok(nextId);
      posts := posts[nextId := created.value];
      nextId := nextId + 1;
    }

    method Write(id: int, vals: PostVals, now: int) returns (r: Result<()>)
      requires Valid() && id in posts
      modifies this
      ensures Valid() && nextId == old(nextId)
      ensures r.Ok? <==> WritePost(old(posts)[id], vals, now).Ok?
      ensures r.Ok? ==> posts == old(posts)[id := WritePost(old(posts)[id], vals, now).value]
      ensures r.Err? ==> posts == old(posts) && r.error == WritePost(old(posts)[id], vals, now).error
      ensures old(AllDated()) && vals.publishedDate == Keep ==> AllDated()
    {
      var written := WritePost(posts[id], vals, now);
      if written.Err? {
        return Err(written.error);
      }
      posts := posts[id := written.value];
      r := Ok(());
    }

    /** `unlink`: nothing is deleted if any of the posts is published. */
    method Unlink(ids: set<int>) returns (r: Result<()>)
      requires Valid()
      modifies this
      ensures Valid() && nextId == old(nextId)
      ensures r.Ok? <==> Deletable(old(posts), ids)
      ensures r.Ok? ==> posts == old(posts) - ids
      ensures r.Err? ==> posts == old(posts) && r.error == CANNOT_DELETE_PUBLISHED
      ensures old(AllDated()) ==> AllDated()
    {
      if exists id :: id in ids && id in posts && posts[id].status == Published {
        return Err(CANNOT_DELETE_PUBLISHED);
      }
      posts := posts - ids;
      r := Ok(());
    }

    method ActionPublish(id: int, now: int)
      requires Valid() && id in posts
      modifies this
      ensures Valid() && nextId == old(nextId)
      ensures posts == old(posts)[id := old(posts)[id].(status := Published, publishedDate := Some(now))]
      ensures old(AllDated()) ==> AllDated()
    {
      PublishAndArchive(posts[id], now);
      var _ := Write(id, PublishVals(now), now);
    }

    method ActionArchivePost(id: int, now: int)
      requires Valid() && id in posts
      modifies this
      ensures Valid() && nextId == old(nextId)
      ensures posts == old(posts)[id := old(posts)[id].(status := Archived)]
      ensures old(AllDated()) ==> AllDated()
    {
      PublishAndArchive(posts[id], now);
      var _ := Write(id, ARCHIVE_VALS, now);
    }

    /** `action_increment_views`: one more view on each post of the set. */
    method ActionIncrementViews(ids: set<int>)
      requires Valid() && ids <= posts.Keys
      modifies this
      ensures Valid() && nextId == old(nextId)
      ensures posts == UpdateAll(old(posts), ids, AddView)
      ensures old(AllDated()) ==> AllDated()
    {
      var todo := ids;
      while todo != {}
        invariant todo <= ids
        invariant nextId == old(nextId)
        invariant posts == UpdateAll(old(posts), ids - todo, AddView)
        decreases todo
      {
        ghost var member := Pick(todo);  // a member for the `:|` below
        var post :| post in todo;
        posts := posts[post := AddView(posts[post])];
        UpdateOneMore(old(posts), ids - todo, post, AddView);
        todo := todo - {post};
      }
      UpdatePreserves(old(posts), ids, AddView);
    }

    /** `action_like`: one more like on each post of the set. */
    method ActionLike(ids: set<int>)
      requires Valid() && ids <= posts.Keys
      modifies this
      ensures Valid() && nextId == old(nextId)
      ensures posts == UpdateAll(old(posts), ids, AddLike)
      ensures old(AllDated()) ==> AllDated()
    {
      var todo := ids;
      while todo != {}
        invariant todo <= ids
        invariant nextId == old(nextId)
        invariant posts == UpdateAll(old(posts), ids - todo, AddLike)
        decreases todo
      {
        ghost var member := Pick(todo);  // a member for the `:|` below
        var post :| post in todo;
        posts := posts[post := AddLike(posts[post])];
        UpdateOneMore(old(posts), ids - todo, post, AddLike);
        todo := todo - {post};
      }
      UpdatePreserves(old(posts), ids, AddLike);
    }
  }
}
