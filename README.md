# Training API addon: a verified model

This project models the Odoo addon `api_training_course`. The addon keeps
three kinds of record, each with REST endpoints:

- **blog posts** (`api.blog.post`): slug, excerpt and reading time; title
  and counter constraints; publish-date stamping; a guard that refuses to
  delete published posts; view and like counters;
- **tasks** (`api.task`): a status machine (todo, in progress, review, done,
  cancelled); the overdue flag and the search domain that must agree with
  it; days until due; range constraints; a create hook that defaults the
  due date; a write hook that forces progress and the completion date;
- **user profiles** (`api.user.profile`): phone, URL and experience
  constraints; one profile per user; comma-separated skill and interest
  lists; social links; the Twitter-handle hook; a view counter.

It also models the three controllers over them. They handle pagination,
filter domains, partial updates limited to a whitelist, author-only edits,
profile get-or-create, public and private profile views, avatar checks,
search and the leaderboard.

The Dafny modules follow the program's structure:

| module | file | models |
|---|---|---|
| `Common` | `common.dfy` | Options, results, ORM values and JSON replies; partial updates (`Keep`/`Put`); ascending id listings; `search` with offset and limit; `search_count` |
| `Fields` | `fields.dfy` | How the ORM converts a `vals` entry to its field's type: Char, Text and Html store `str(value)`, Integer `int(value or 0)`, Boolean `bool(value)`, and a Date no date for a falsy value |
| `Text` | `text.dfy` | The ASCII string operations the code relies on: `lower`, `isalnum`, `str.split()`, `str.split(',')`, `strip`, `lstrip`, `ilike`, `int()` on decimal text whose digits single underscores may group |
| `Paging` | `paging.dfy` | Query-parameter parsing and page arithmetic shared by the listings |
| `BlogPostModel` | `blog_post.dfy` | `models/api_blog_post.py` |
| `TaskModel` | `task.dfy` | `models/api_task.py` |
| `ProfileModel` | `user_profile.dfy` | `models/api_user_profile.py` |
| `Base64` | `base64.dfy` | The base64 encoding of uploaded avatars (RFC 4648, section 4) |
| `BlogApi` | `blog_api.dfy` | `controllers/blog_api.py` |
| `TaskApi` | `task_api.dfy` | `controllers/task_api.py` |
| `UserApi` | `user_api.dfy` | `controllers/user_api.py` |

The model's structure mirrors the source:

- **Stores.** Each model's table is a class (`PostStore`, `TaskStore`,
  `ProfileStore`) holding a `map<int, Record>` and the next id. Its methods
  (`Create`, `Write`, `Unlink`, the `action_*` methods) change the map in
  place. Each method is specified by a pure function of the old state
  (`NewPost`, `WritePost`, `WriteTask`, `WriteProfile`, ...), and the lemmas
  are about those functions.
- **Writes.** The ORM `vals` dictionary is a `map<string, Value>`. It is
  decoded into a record of partial updates, the model's hook runs on it,
  and then the constraints run.
- **Constraints.** The model treats a failed constraint as refusing the
  create or write outright: the store is left unchanged. This is a
  modelling choice; the program commits the refused row (see "Findings").
  Constraint methods run in the alphabetical order of their names, as Odoo
  collects them, so the first failing one gives the error.
- **Listings.** The counter actions and the leaderboard loop over their
  records in imperative methods. The listing, search and serialisation
  expressions are functions.
- **Handlers.** Each HTTP handler returns a `Reply`: success with a JSON
  value and a status, or failure with a message and a status. Handlers
  that change the store are methods on the store. The clock (`today` as a
  day number, `now` as a second number) and the user names (`users`, a
  map from user id to name) are parameters.

## Model

All source paths are under `addons/api_training_course/`.

| member | source | states |
|---|---|---|
| BlogPostModel.SlugShape | addons/api_training_course/models/api_blog_post.py:113-124 | A slug exists exactly when the title is non-empty. It is made of lower-case letters, digits and single hyphens between words, with no leading, trailing or doubled hyphen. |
| BlogPostModel.SlugKeepsLettersAndDigits | addons/api_training_course/models/api_blog_post.py:118-124 | Dropping the hyphens from a slug gives exactly the letters and digits of the lower-cased title, in order. |
| BlogPostModel.SlugExample | addons/api_training_course/models/api_blog_post.py:118-124 | "Hello, World! 2024" becomes "hello-world-2024". |
| BlogPostModel.SlugOfSlug | addons/api_training_course/models/api_blog_post.py:120-121 | Slugging is not idempotent: slugging "hello-world" gives "helloworld". |
| BlogPostModel.StripTags | addons/api_training_course/models/api_blog_post.py:131-133 | Removing `<...>` tags in one pass never lengthens the text and adds no character. |
| BlogPostModel.StripTagsPlain | addons/api_training_course/models/api_blog_post.py:131-133 | Text without '<' passes through tag stripping unchanged. |
| BlogPostModel.StripElement | addons/api_training_course/models/api_blog_post.py:131-133 | An element holding plain text, `<name>text</name>` (say "<p>Hello World</p>"), is stripped to exactly its text. |
| BlogPostModel.StripTagsSinglePass | addons/api_training_course/models/api_blog_post.py:131-133 | One pass can leave a tag behind: "<<a>b>" becomes "<b>". |
| BlogPostModel.Excerpt | addons/api_training_course/models/api_blog_post.py:126-136 | Empty content gives "". Otherwise the excerpt is the tag-stripped text when that has at most 200 characters, and its first 200 characters followed by "..." when longer. It never exceeds 203 characters. |
| BlogPostModel.ExcerptOfShortPlainText | addons/api_training_course/models/api_blog_post.py:130-136 | Short text without markup is its own excerpt. |
| BlogPostModel.ReadingTimeBounds | addons/api_training_course/models/api_blog_post.py:138-148 | Reading time is 0 exactly for empty content. Otherwise its bounds pin it to `max(1, words // 200)`, counting the words of the tag-stripped text, so it is at least 1. |
| BlogPostModel.ReadingTimeOfMarkupOnly | addons/api_training_course/models/api_blog_post.py:141-148 | Content that is pure markup still reads in 1 minute. |
| BlogPostModel.TitleError | addons/api_training_course/models/api_blog_post.py:152-157 | A title is refused exactly when it is non-empty and shorter than 5 characters. |
| BlogPostModel.CountsError | addons/api_training_course/models/api_blog_post.py:159-164 | The counters are accepted exactly when neither is negative. |
| BlogPostModel.StatusName | addons/api_training_course/models/api_blog_post.py:73-77 | Each status's selection key parses back to that status. |
| BlogPostModel.DecodeVals | addons/api_training_course/models/api_blog_post.py:24-98 | A decoded `vals` names only known fields, and sets each field exactly when its key is present; each value is converted to its field's type as the ORM converts it, and the write raises only for a value that cannot be converted. |
| BlogPostModel.CreateHook | addons/api_training_course/models/api_blog_post.py:195-202 | Creating a post as published without a date stamps it with now. Any other creation is left as given. |
| BlogPostModel.WriteHook | addons/api_training_course/models/api_blog_post.py:204-210 | Writing status published to a post not yet published stamps the date with now. Any other write is left as given. |
| BlogPostModel.NewPost | addons/api_training_course/models/api_blog_post.py:195-202 | Creation succeeds exactly when the title and content are given, the title is acceptable and no counter is negative. The result is sound and dated; its status defaults to draft and its author to the acting user. |
| BlogPostModel.WritePost | addons/api_training_course/models/api_blog_post.py:204-210 | A write keeps a post sound. It applies the hooked values, stamps the date on publication, keeps the date of an already-published post, and fails exactly when a constraint fails. |
| BlogPostModel.PublishAndArchive | addons/api_training_course/models/api_blog_post.py:168-179 | `action_publish` sets status published and the date to now; `action_archive_post` sets status archived. Neither changes anything else. |
| BlogPostModel.CounterWrites | addons/api_training_course/models/api_blog_post.py:181-191 | The counter writes add exactly 1 to their own counter and change no other field. |
| BlogPostModel.UpdatePreserves | addons/api_training_course/models/api_blog_post.py:181-191 | Adding views or likes keeps the same posts, each still sound and dated. |
| BlogPostModel.PostStore.constructor | addons/api_training_course/models/api_blog_post.py:15-18 | An empty table. |
| BlogPostModel.PostStore.Ids | addons/api_training_course/models/api_blog_post.py:18 | Lists every stored post and only stored posts. |
| BlogPostModel.PostStore.Create | addons/api_training_course/models/api_blog_post.py:195-202 | Stores `NewPost` under a new id when it succeeds. On failure nothing changes and the error is returned. |
| BlogPostModel.PostStore.Write | addons/api_training_course/models/api_blog_post.py:204-210 | Replaces the post by `WritePost` when it succeeds. On failure nothing changes and the error is returned. |
| BlogPostModel.PostStore.Unlink | addons/api_training_course/models/api_blog_post.py:212-218 | Deletes the set exactly when none of its posts is published. Otherwise it fails and deletes nothing. |
| BlogPostModel.PostStore.ActionPublish | addons/api_training_course/models/api_blog_post.py:168-174 | Only the status and date of that post change. |
| BlogPostModel.PostStore.ActionArchivePost | addons/api_training_course/models/api_blog_post.py:176-179 | Only the status of that post changes, to archived. |
| BlogPostModel.PostStore.ActionIncrementViews | addons/api_training_course/models/api_blog_post.py:181-185 | Each post of the set gets exactly one more view; nothing else changes. |
| BlogPostModel.PostStore.ActionLike | addons/api_training_course/models/api_blog_post.py:187-191 | Each post of the set gets exactly one more like; nothing else changes. |
| TaskModel.TaskStatusName | addons/api_training_course/models/api_task.py:62-68 | Each status's selection key parses back to that status. |
| TaskModel.PriorityKey | addons/api_training_course/models/api_task.py:70-75 | Each priority's selection key parses back to that priority. |
| TaskModel.DaysUntilDue | addons/api_training_course/models/api_task.py:149-158 | Today plus the days left is the due date; no due date gives 0. |
| TaskModel.OverdueIffPastDue | addons/api_training_course/models/api_task.py:120-129 | A task that is due and still open is overdue exactly when its days left are negative. |
| TaskModel.OverdueDomainAgrees | addons/api_training_course/models/api_task.py:131-147 | For every operator and value, the search domain selects exactly the tasks whose computed flag matches the search: the overdue ones, or their complement. |
| TaskModel.ProgressError | addons/api_training_course/models/api_task.py:162-167 | Progress is accepted exactly in [0, 100]. |
| TaskModel.HoursError | addons/api_training_course/models/api_task.py:169-174 | Hours are accepted exactly when neither is negative. |
| TaskModel.DecodeVals | addons/api_training_course/models/api_task.py:25-118 | A decoded `vals` names only known fields, and sets each field exactly when its key is present; each value is converted to its field's type as the ORM converts it, and the write raises only for a value that cannot be converted. |
| TaskModel.CreateHook | addons/api_training_course/models/api_task.py:217-224 | Without a due date, the due date becomes today + 7; a supplied date is kept. |
| TaskModel.WriteHook | addons/api_training_course/models/api_task.py:226-234 | Without a progress value, status done forces progress 100 and the completion date now, and status todo forces progress 0. A supplied progress is kept, and any other write is unchanged. |
| TaskModel.NewTask | addons/api_training_course/models/api_task.py:217-224 | Creation succeeds exactly when a name is given and progress and hours are in range. Status defaults to todo, the creator to the acting user and the due date to today + 7. |
| TaskModel.WriteTask | addons/api_training_course/models/api_task.py:226-234 | A write keeps a task sound and applies the hooked values. It fails exactly when hours or progress are out of range. |
| TaskModel.WriteKeepsStamps | addons/api_training_course/models/api_task.py:226-234 | A write that names neither the creator nor the completion date keeps the creator, and changes the completion date only when the hook stamps a completion. |
| TaskModel.StartAndCancel | addons/api_training_course/models/api_task.py:188-205 | `action_start` and `action_cancel` change only the status, to in progress and cancelled. |
| TaskModel.CompleteAndReopen | addons/api_training_course/models/api_task.py:193-213 | `action_complete` leaves status done, progress 100, the completion date set and the task not overdue. `action_reopen` leaves status todo, no completion date and, through the write hook, progress 0. |
| TaskModel.TaskStore.constructor | addons/api_training_course/models/api_task.py:18-21 | An empty table. |
| TaskModel.TaskStore.Ids | addons/api_training_course/models/api_task.py:21 | Lists every stored task and only stored tasks. |
| TaskModel.TaskStore.Create | addons/api_training_course/models/api_task.py:217-224 | Stores `NewTask` under a new id when it succeeds. On failure nothing changes. |
| TaskModel.InsertedTask | addons/api_training_course/models/api_task.py:217-224 | The row the ORM inserts before validating: the created task when creation succeeds, and a row that breaks a constraint exactly when creation fails. |
| TaskModel.RejectedTaskCommitted | addons/api_training_course/controllers/task_api.py:213-229 | A task with estimated hours -1 is refused with "Hours cannot be negative", yet the row inserted for it breaks the constraint. |
| TaskModel.RejectedWriteCommitted | addons/api_training_course/controllers/task_api.py:255-267 | A write of progress 101 is refused, yet the row it updated breaks the constraint. |
| TaskModel.TaskStore.Write | addons/api_training_course/models/api_task.py:226-234 | Replaces the task by `WriteTask` when it succeeds. On failure nothing changes. |
| TaskModel.TaskStore.Unlink | addons/api_training_course/controllers/task_api.py:282 | Removes the task. |
| TaskModel.TaskStore.ActionStart | addons/api_training_course/models/api_task.py:188-191 | Only the status changes, to in progress. |
| TaskModel.TaskStore.ActionComplete | addons/api_training_course/models/api_task.py:193-200 | Status done, progress 100 and the completion date now; nothing else changes. |
| TaskModel.TaskStore.ActionCancel | addons/api_training_course/models/api_task.py:202-205 | Only the status changes, to cancelled. |
| TaskModel.TaskStore.ActionReopen | addons/api_training_course/models/api_task.py:207-213 | Status todo, no completion date and progress 0; nothing else changes. |
| ProfileModel.ExperienceError | addons/api_training_course/models/api_user_profile.py:271-278 | Experience is accepted exactly in [0, 70], with a distinct message below and above. |
| ProfileModel.PhoneAccepted | addons/api_training_course/models/api_user_profile.py:242-251 | An accepted non-empty phone has 7 to 15 digits and no character other than digits, separators and '+'. |
| ProfileModel.SeparatorsIgnored | addons/api_training_course/models/api_user_profile.py:247-249 | Inserting a space, '-', '(' or ')' never changes the verdict. |
| ProfileModel.DashedDigitsAccepted | addons/api_training_course/models/api_user_profile.py:247-251 | Digit groups joined by dashes, 7 to 15 digits in all, are accepted (for example "123-456-7890"). |
| ProfileModel.ShortNumberRefused | addons/api_training_course/models/api_user_profile.py:247-251 | "abc" is refused. |
| ProfileModel.UrlError | addons/api_training_course/models/api_user_profile.py:253-269 | Website and LinkedIn URLs are accepted exactly when each is empty or matches the URL pattern. |
| ProfileModel.UrlNeedsScheme | addons/api_training_course/models/api_user_profile.py:256-263 | Every URL the pattern accepts starts with "http://" or "https://", ignoring case. |
| ProfileModel.RefusedWithoutScheme | addons/api_training_course/models/api_user_profile.py:256-263 | Text that does not start with 'h' or 'H' is never accepted. |
| ProfileModel.HttpsUrlAccepted | addons/api_training_course/models/api_user_profile.py:256-263 | "https://example.com" is accepted. |
| ProfileModel.LocalUrlAccepted | addons/api_training_course/models/api_user_profile.py:256-263 | "http://localhost:8069/web" is accepted (host, port and path). |
| ProfileModel.ListItemsClean | addons/api_training_course/models/api_user_profile.py:298-310 | Every item of a skill or interest list is non-empty, has no surrounding whitespace and holds no comma. |
| ProfileModel.ListRoundTrip | addons/api_training_course/models/api_user_profile.py:298-310 | Clean items joined with commas parse back to the same items; the empty text gives []. |
| ProfileModel.SocialLinks | addons/api_training_course/models/api_user_profile.py:312-325 | There is a link exactly for each non-empty field: LinkedIn and website as given, GitHub and Twitter behind their site prefix, and the handle without leading '@'. |
| ProfileModel.HandleHookKeepsLinks | addons/api_training_course/models/api_user_profile.py:321-343 | Stripping '@' on write does not change the Twitter link. |
| ProfileModel.HandleError | addons/api_training_course/models/api_user_profile.py:337-343 | The override's `.lstrip('@')` runs on the handle as given: it raises AttributeError ("'int' object has no attribute 'lstrip'", or 'bool') exactly when the handle is present, truthy and not text. |
| ProfileModel.WriteHook | addons/api_training_course/models/api_user_profile.py:337-343 | A supplied text Twitter handle loses all leading '@'; every other value passes through unchanged. |
| ProfileModel.HandleStoredWithoutAt | addons/api_training_course/models/api_user_profile.py:337-343 | Writing a handle stores it without leading '@'. |
| ProfileModel.CreateHook | addons/api_training_course/models/api_user_profile.py:329-335 | The creation date defaults to now; every other value passes through unchanged. |
| ProfileModel.DecodeVals | addons/api_training_course/models/api_user_profile.py:25-213 | A decoded `vals` names only known fields, and sets each field exactly when its key is present; each value is converted to its field's type as the ORM converts it, and the write raises only for a value that cannot be converted. |
| ProfileModel.HoldersAfterStore | addons/api_training_course/models/api_user_profile.py:235-240 | Storing a profile gives its user more than one profile exactly when another record already holds that user. |
| ProfileModel.StoreKeepsOnePerUser | addons/api_training_course/models/api_user_profile.py:235-240 | Storing a profile whose user no other record holds keeps one profile per user. |
| ProfileModel.NewProfile | addons/api_training_course/models/api_user_profile.py:329-335 | Creation succeeds exactly when a user is given, the constraints hold and no other profile has that user. The creation date defaults to now. |
| ProfileModel.WriteProfile | addons/api_training_course/models/api_user_profile.py:337-343 | A write applies the hooked values and keeps the profile sound. It fails exactly when a constraint fails or the new user is already taken. |
| ProfileModel.ViewIsWrite | addons/api_training_course/models/api_user_profile.py:282-286 | The view action's write adds exactly 1 to the view count. |
| ProfileModel.VerifyIsWrite | addons/api_training_course/models/api_user_profile.py:288-291 | The verify action's write sets only the verified flag. |
| ProfileModel.LoginIsWrite | addons/api_training_course/models/api_user_profile.py:293-296 | The login action's write sets only the last login to now. |
| ProfileModel.ActionsPreserve | addons/api_training_course/models/api_user_profile.py:282-296 | An action that keeps each profile's user and soundness keeps the table's records sound and one per user. |
| ProfileModel.ActionsKeepUserAndSoundness | addons/api_training_course/models/api_user_profile.py:282-296 | The view, verify and login actions keep each profile's user and soundness. |
| ProfileModel.CountsFollowNewRecords | addons/api_training_course/models/api_user_profile.py:217-231 | A new post counts for its author, and a new task for its assignee; other counts are unchanged. |
| ProfileModel.SearchFindsHolders | addons/api_training_course/controllers/user_api.py:35-36 | The search by user finds only profiles of that user, and finds none exactly when the user has none. |
| ProfileModel.FirstHolder | addons/api_training_course/controllers/user_api.py:35-36 | Gives a profile of the user, or nothing exactly when the user has none. |
| ProfileModel.ProfileStore.constructor | addons/api_training_course/models/api_user_profile.py:19-22 | An empty table. |
| ProfileModel.ProfileStore.ProfileOf | addons/api_training_course/controllers/user_api.py:35-36 | Finds a profile of the user, or none exactly when the user has none. |
| ProfileModel.ProfileStore.Create | addons/api_training_course/models/api_user_profile.py:329-335 | Stores `NewProfile` under the next id when it succeeds. On failure nothing changes. |
| ProfileModel.ProfileStore.Write | addons/api_training_course/models/api_user_profile.py:337-343 | Replaces the profile by `WriteProfile` when it succeeds. On failure nothing changes. |
| ProfileModel.ProfileStore.ActionIncrementViews | addons/api_training_course/models/api_user_profile.py:282-286 | Each profile of the set gets exactly one more view; nothing else changes. |
| ProfileModel.ProfileStore.ActionVerifyAccount | addons/api_training_course/models/api_user_profile.py:288-291 | Each profile of the set is verified; nothing else changes. |
| ProfileModel.ProfileStore.ActionUpdateLastLogin | addons/api_training_course/models/api_user_profile.py:293-296 | Each profile of the set gets last login now; nothing else changes. |
| Common.Field | addons/api_training_course/models/api_blog_post.py:204-210 | A field of `vals` is set exactly when its key is present and decodes. |
| Fields.AsText | addons/api_training_course/models/api_blog_post.py:98-102 | A text field stores a string as given, an integer as its decimal text (which `int()` reads back), `True` as "True", and None or False as no text; it never raises. |
| Fields.AsRequiredText | addons/api_training_course/models/api_blog_post.py:24-29 | A required text accepts exactly the values other than None and False, including "" and numbers, and stores what `AsText` stores; an unset value raises the missing-value error. |
| Fields.AsInt | addons/api_training_course/models/api_task.py:112-116 | An integer field stores an integer as given, `True` as 1, a falsy value as 0, and a non-empty string as the value `int()` reads from it; it raises exactly when `int()` refuses that string. |
| Fields.AsBool | addons/api_training_course/models/api_blog_post.py:79-83 | A boolean field stores the truth value of whatever it is given. |
| Fields.AsDate | addons/api_training_course/models/api_task.py:78-81 | A date field stores a day number as given and no date for a falsy value (including ""); it raises for any other value. |
| Fields.TextThenInt | addons/api_training_course/models/api_task.py:112-116 | An integer stored as text and read back into an integer field keeps its value. |
| Common.IdsIn | addons/api_training_course/controllers/blog_api.py:127 | The listing holds every stored id in range, ascending, and nothing else. |
| Common.Select | addons/api_training_course/controllers/blog_api.py:126-127 | A search returns only listed records that satisfy the domain, every listed record that does, and no more ids than are listed. Its order is stated by `SelectIncreasing`. |
| Common.SelectCard | addons/api_training_course/controllers/blog_api.py:126-127 | Over an ascending listing, a search returns each matching record once: as many ids as there are matching records. |
| Common.SelectIncreasing | addons/api_training_course/controllers/blog_api.py:126-127 | Over an ascending id listing, a search returns its ids in ascending order. |
| Common.WindowOfSelect | addons/api_training_course/controllers/blog_api.py:126-127 | A search with limit `l` over an ascending listing returns, in ascending order, `min(l, n)` of the `n` matching ids (all `n` with no limit), and every matching id it leaves out is above every id it returns: the first `l` matches. |
| Common.SelectCount | addons/api_training_course/controllers/blog_api.py:126-127 | A search over the whole table returns as many records as `search_count` counts. |
| Common.Window | addons/api_training_course/controllers/blog_api.py:127 | `offset` and `limit` keep the results from the offset on, at most `limit` of them; a limit of 0 keeps all. |
| Common.CountInsert | addons/api_training_course/models/api_user_profile.py:217-231 | A new record raises a count by 1 when it matches, and not otherwise. |
| Common.PickFields | addons/api_training_course/controllers/user_api.py:167-173 | Copies exactly the listed keys that the request holds, with their values. |
| Text.Lower | addons/api_training_course/models/api_blog_post.py:120 | Lower-casing keeps the length and lower-cases each character. |
| Text.FilterAppend | addons/api_training_course/models/api_blog_post.py:120 | Filtering distributes over concatenation. |
| Text.WordsConcat | addons/api_training_course/models/api_blog_post.py:121 | The words of `str.split()` are exactly the non-blank characters, in order. |
| Text.WordsChars | addons/api_training_course/models/api_blog_post.py:121 | Every word is non-empty and holds no blank. |
| Text.JoinSplit | addons/api_training_course/controllers/blog_api.py:59 | Joining the parts of `split(',')` with commas gives back the text. |
| Text.SplitJoin | addons/api_training_course/models/api_user_profile.py:302 | Splitting comma-joined parts without commas gives back the parts. |
| Text.StripSlice | addons/api_training_course/models/api_user_profile.py:302 | `strip()` returns a slice of the text that neither starts nor ends with a blank. |
| Text.StripCut | addons/api_training_course/models/api_user_profile.py:302 | `strip()` removes only blanks. |
| Text.LStrip | addons/api_training_course/models/api_user_profile.py:321 | `lstrip('@')` removes exactly the leading '@' characters. |
| Text.ParseIntToString | addons/api_training_course/controllers/blog_api.py:107-109 | `int()` reads back every integer's decimal text. |
| Text.UnderscoreIgnored | addons/api_training_course/controllers/blog_api.py:107-108 | `int()` accepts two digit groups joined by one underscore and reads them as the digits written together. |
| Text.MisplacedUnderscores | addons/api_training_course/controllers/blog_api.py:107-108 | `int()` refuses a doubled underscore and an underscore at either end of the digits (`1__0`, `_1`, `1_`). |
| Text.ParseGroupedExample | addons/api_training_course/controllers/blog_api.py:107-108 | `int("1_0")` is 10. |
| Paging.GroupedParam | addons/api_training_course/controllers/blog_api.py:107-108 | A query value `a_b` of two digit groups gives the same page or limit as `ab`, and never an error. |
| Paging.IntParam | addons/api_training_course/controllers/blog_api.py:107-108 | A missing parameter gives the default. A present one gives the value `int()` reads from it (surrounding blanks, an optional sign, digits that single underscores may group), or an error when `int()` refuses it. |
| Paging.LimitParam | addons/api_training_course/controllers/blog_api.py:108-109 | The limit is `min(int(given), maximum)`, or `min(default, maximum)` when missing. It is an error exactly when `int()` refuses the given text. |
| Paging.ParsePagination | addons/api_training_course/controllers/blog_api.py:107-109 | The offset is `(page - 1) * limit`, never negative on a servable page, and the limit is at most the maximum. Parsing fails exactly when `int()` refuses the page or the limit. |
| Paging.PageCount | addons/api_training_course/controllers/blog_api.py:139 | `(total + limit - 1) // limit` is the ceiling of total / limit: the pages hold all records, and the last page is not empty. |
| Paging.PagesCoverAll | addons/api_training_course/controllers/task_api.py:146 | Reading pages 1 to the page count returns every record once, in order. |
| Paging.InvalidParameter | addons/api_training_course/controllers/blog_api.py:143-144 | The 400 message for a bad parameter always begins with "Invalid parameter: ". |
| Paging.PastLastPage | addons/api_training_course/controllers/task_api.py:109-146 | A page beyond the page count is empty. |
| Base64.Char | addons/api_training_course/controllers/user_api.py:249 | Each six-bit value's character reads back as that value; only padding writes '='. |
| Base64.JoinSplit | addons/api_training_course/controllers/user_api.py:249 | The six-bit groups of some bytes join back to the bytes. |
| Base64.DecodeEncode | addons/api_training_course/controllers/user_api.py:249 | Decoding the encoding of any bytes gives back the bytes. |
| Base64.EncodeShape | addons/api_training_course/controllers/user_api.py:249 | The encoding uses the alphabet followed by one '=' per missing byte of the last group, and its length is 4 * ceil(n / 3). |
| BlogApi.TagList | addons/api_training_course/controllers/blog_api.py:59 | Empty tags give []; otherwise the comma-split items, none holding a comma. |
| BlogApi.TagListJoin | addons/api_training_course/controllers/blog_api.py:59 | Joining the serialised tags with commas gives back the stored text. |
| BlogApi.TagListSplit | addons/api_training_course/controllers/blog_api.py:59 | Comma-free tags joined with commas serialise back to the same list. |
| BlogApi.SerializePosts | addons/api_training_course/controllers/blog_api.py:130 | One serialised post per listed id, in order. |
| BlogApi.BuildPostDomain | addons/api_training_course/controllers/blog_api.py:112-122 | The appended domain is the one `PostDomain` describes. |
| BlogApi.PostFilterMeaning | addons/api_training_course/controllers/blog_api.py:112-122 | A post matches exactly when it has the given status, the given author and the given featured flag (`'true'` ignoring case), each only where that parameter is non-empty. |
| BlogApi.PostDomainIgnoresOthers | addons/api_training_course/controllers/blog_api.py:112-122 | Parameters other than status, author and featured do not change the domain. |
| BlogApi.PostsReply | addons/api_training_course/controllers/blog_api.py:92-147 | A non-integer page, limit or author gives 400 "Invalid parameter: ..."; success needs valid parameters and a non-negative window. |
| BlogApi.GetPosts | addons/api_training_course/controllers/blog_api.py:92-147 | Answers as `PostsReply` over the table. |
| BlogApi.GetPost | addons/api_training_course/controllers/blog_api.py:150-171 | A missing post gives 404 and changes nothing. Otherwise the post gets one more view and is returned. |
| BlogApi.CreateVals | addons/api_training_course/controllers/blog_api.py:200-207 | The author is the acting user and the status defaults to draft. |
| BlogApi.CreatedPostFacts | addons/api_training_course/controllers/blog_api.py:200-207 | A created post is sound, its author is the caller and its status defaults to draft. |
| BlogApi.CreatePost | addons/api_training_course/controllers/blog_api.py:174-222 | A missing title or content gives an error and creates nothing. Otherwise exactly one new post is stored when creation succeeds, and nothing changes when it fails. |
| BlogApi.UpdateVals | addons/api_training_course/controllers/blog_api.py:253-263 | `vals` holds exactly the supplied keys among title, content, status, `is_featured` and tags. |
| BlogApi.UpdateKeepsTheRest | addons/api_training_course/controllers/blog_api.py:253-266 | An update keeps the author and the counters, and keeps the date unless it publishes. |
| BlogApi.UpdatePost | addons/api_training_course/controllers/blog_api.py:225-278 | A missing post, or one that the caller did not write, gives an error and is left unchanged. The author's update replaces the post, or fails and changes nothing. |
| BlogApi.DeletePost | addons/api_training_course/controllers/blog_api.py:281-313 | A missing post, another author's post or a published post gives an error and deletes nothing. The author's draft or archived post is deleted. |
| BlogApi.LikePost | addons/api_training_course/controllers/blog_api.py:318-343 | A missing post gives an error. Otherwise it gets one more like and the reply carries the new count. |
| BlogApi.GetFeaturedPosts | addons/api_training_course/controllers/blog_api.py:346-368 | The count is the number of featured published posts. |
| BlogApi.FeaturedListsAll | addons/api_training_course/controllers/blog_api.py:356-358 | The listing holds every featured published post, once each. |
| BlogApi.SearchResults | addons/api_training_course/controllers/blog_api.py:385-392 | Only published posts whose title or content matches, at most `limit` of them, and all of them when there is no limit. |
| BlogApi.SearchListsFirstFound | addons/api_training_course/controllers/blog_api.py:385-392 | Over an ascending listing the search returns the first `min(limit, n)` of the `n` found posts (all `n` with no limit), in ascending id order: every found post left out comes after every post returned. |
| BlogApi.SearchCount | addons/api_training_course/controllers/blog_api.py:385-392 | Over the whole store the search returns `min(limit, n)` posts, where `n` is the number `search_count` finds with the same domain (all `n` with no limit). |
| BlogApi.SearchPosts | addons/api_training_course/controllers/blog_api.py:371-407 | A limit `int()` refuses gives 500; then an empty `q` gives 400, and a negative limit 500. The limit is `min(given, 100)`, default 20. Success returns the serialised `SearchResults` over the whole store, which `SearchListsFirstFound` and `SearchCount` pin to the first `min(limit, n)` found posts. |
| TaskApi.SerializeTasks | addons/api_training_course/controllers/task_api.py:138 | One serialised task per listed id, in order. |
| TaskApi.BuildTaskDomain | addons/api_training_course/controllers/task_api.py:114-130 | The appended domain is the one `TaskDomain` describes. |
| TaskApi.MatchesConcat | addons/api_training_course/controllers/task_api.py:114-130 | A domain built from two parts matches exactly when both parts do. |
| TaskApi.TaskFilterMeaning | addons/api_training_course/controllers/task_api.py:114-130 | A task matches exactly when it has the given status, priority and assignee, its project contains the given text ignoring case, and its overdue flag equals `'true'` ignoring case, each only where that parameter is non-empty. |
| TaskApi.TasksReply | addons/api_training_course/controllers/task_api.py:92-152 | Any error, including a non-integer parameter, gives 500 "Internal server error". |
| TaskApi.GetTasks | addons/api_training_course/controllers/task_api.py:92-152 | Answers as `TasksReply` over the table. |
| TaskApi.GetTask | addons/api_training_course/controllers/task_api.py:155-173 | 404 "Task not found" exactly for a missing id. |
| TaskApi.CreateVals | addons/api_training_course/controllers/task_api.py:198-214 | The name is kept, the creator is the caller, and each optional field is set exactly when given. |
| TaskApi.CreatedTaskFacts | addons/api_training_course/controllers/task_api.py:198-214 | A created task is sound. Its creator is the caller, and its status, priority and due date default to todo, '1' and today + 7. |
| TaskApi.CreateTask | addons/api_training_course/controllers/task_api.py:176-229 | A missing name gives an error and creates nothing. Otherwise exactly one new task is stored when creation succeeds, and nothing changes when it fails. |
| TaskApi.UpdateKeepsCreator | addons/api_training_course/controllers/task_api.py:245-255 | An update never changes the creator, and changes the completion date only to stamp a completion. |
| TaskApi.UpdateTask | addons/api_training_course/controllers/task_api.py:232-267 | A missing id gives "Task not found" and changes nothing. Otherwise the task is replaced by the whitelisted write, or nothing changes when it fails. |
| TaskApi.DeleteTask | addons/api_training_course/controllers/task_api.py:270-291 | Succeeds exactly when the task exists, and removes only it. |
| TaskApi.StartTask | addons/api_training_course/controllers/task_api.py:296-320 | A missing id gives "Task not found" and changes nothing. Otherwise only the status changes, to in progress. |
| TaskApi.CompleteTask | addons/api_training_course/controllers/task_api.py:323-347 | A missing id gives "Task not found" and changes nothing. Otherwise the task is done with progress 100 and the completion date now. |
| TaskApi.CancelTask | addons/api_training_course/controllers/task_api.py:350-374 | A missing id gives "Task not found" and changes nothing. Otherwise only the status changes, to cancelled. |
| TaskApi.ClosedTasksNotOverdue | addons/api_training_course/models/api_task.py:126-129 | A completed or cancelled task is never overdue. |
| TaskApi.MyTaskIds | addons/api_training_course/controllers/task_api.py:389-395 | Exactly the caller's tasks, of the given status when one is given. |
| TaskApi.GetMyTasks | addons/api_training_course/controllers/task_api.py:379-406 | The count is the number of the caller's tasks that match. |
| TaskApi.OverdueListing | addons/api_training_course/controllers/task_api.py:416-417 | The overdue listing holds exactly the tasks whose computed flag is set. |
| TaskApi.GetOverdueTasks | addons/api_training_course/controllers/task_api.py:409-428 | The count is the number of tasks the overdue search selects. |
| TaskApi.TasksByPriority | addons/api_training_course/models/api_task.py:248-251 | Exactly the tasks of the given priority. |
| TaskApi.TasksByPriorityCounted | addons/api_training_course/models/api_task.py:248-251 | The search by priority lists as many tasks as the statistics count for that priority. |
| TaskApi.StatusCounts | addons/api_training_course/controllers/task_api.py:442-448 | Each `by_status` entry (todo, in_progress, review, done, cancelled) is the number of tasks with that status, and the five add up to the number of tasks. |
| TaskApi.PriorityCounts | addons/api_training_course/controllers/task_api.py:449-454 | Each `by_priority` entry (low, normal, high, urgent) is the number of tasks with that priority, and the four add up to the number of tasks that have a priority. |
| TaskApi.Stats | addons/api_training_course/controllers/task_api.py:440-457 | The statistics hold exactly five entries: `total` is the number of tasks, `by_status` and `by_priority` are the two count objects, `overdue` is the number of overdue tasks, and `my_tasks` is the number of tasks assigned to the caller. The overdue, done and cancelled tasks together are at most the total, and so are the caller's tasks. |
| TaskApi.GetTaskStats | addons/api_training_course/controllers/task_api.py:430-463 | Always answers 200 with the statistics of the whole store and the caller (every entry as `Stats` pins it); its total is the number of tasks and its overdue count is the count `get_overdue_tasks` reports. |
| TaskApi.StatusCountsSum | addons/api_training_course/controllers/task_api.py:440-448 | The counts by status add up to the total. |
| TaskApi.PriorityCountsSum | addons/api_training_course/controllers/task_api.py:450-455 | The counts by priority add up to the tasks that have a priority. |
| TaskApi.OverdueAmongOpen | addons/api_training_course/controllers/task_api.py:440-457 | The overdue tasks are never done or cancelled, so they never outnumber the open tasks. |
| UserApi.GetOrCreate | addons/api_training_course/controllers/user_api.py:33-42 | Gives a profile of the user, in a table whose ids stay below the next id. |
| UserApi.GetOrCreateCases | addons/api_training_course/controllers/user_api.py:33-42 | An existing profile is returned with the table unchanged. Otherwise exactly one fresh profile is stored under a new id. |
| UserApi.FreshAccepted | addons/api_training_course/controllers/user_api.py:38-41 | Creating the missing profile always passes the constraints. |
| UserApi.GotOnlyHolder | addons/api_training_course/controllers/user_api.py:33-42 | After get-or-create the user has exactly one profile, and every user still has at most one. |
| UserApi.GetOrCreateIdempotent | addons/api_training_course/controllers/user_api.py:33-42 | A second call returns the same profile and creates nothing. |
| UserApi.GetProfile | addons/api_training_course/controllers/user_api.py:33-42 | The table becomes the one `GetOrCreate` describes. |
| UserApi.ProfileJson | addons/api_training_course/controllers/user_api.py:44-79 | The public keys are always present; the private keys are present exactly when `include_private` is set. |
| UserApi.ViewsAgree | addons/api_training_course/controllers/user_api.py:44-79 | The public view is the public fields. The private view agrees with it on every public key and adds the private fields. |
| UserApi.GetMyProfile | addons/api_training_course/controllers/user_api.py:106-124 | Gets or creates the caller's profile, stamps the last login and returns the private view. |
| UserApi.SelfUpdate | addons/api_training_course/controllers/user_api.py:158-173 | With no whitelisted key present nothing is written; a truthy `twitter_handle` that is not text (say 123 or true) fails with the write override's AttributeError; a successful update keeps the profile sound. |
| UserApi.SelfUpdateKeepsProtected | addons/api_training_course/controllers/user_api.py:158-173 | A self-update never changes the user, the avatar, the view count, the login and creation dates, or the verified and active flags. |
| UserApi.UpdateMyProfile | addons/api_training_course/controllers/user_api.py:127-185 | Gets or creates the caller's profile, then stores the whitelisted update and returns the private view. On a failure, including the AttributeError of a non-text `twitter_handle`, it answers `success: false` with the error's text and writes nothing. |
| UserApi.GetUserProfile | addons/api_training_course/controllers/user_api.py:188-211 | An unknown user gives 404 "User not found" and changes nothing. Otherwise the profile gets one more view and the public view is returned. |
| UserApi.AvatarCheck | addons/api_training_course/controllers/user_api.py:228-247 | A missing entry gives "No file uploaded". A name not ending in .jpg, .jpeg, .png or .gif, ignoring case, is refused. Content over 2 * 1024 * 1024 bytes is refused. |
| UserApi.PlainFieldRefused | addons/api_training_course/controllers/user_api.py:232-239 | A plain text field in place of a file is refused as a wrong file type. |
| UserApi.UploadAvatar | addons/api_training_course/controllers/user_api.py:214-262 | A refused upload gives 400 and changes nothing. An accepted one stores the base64 of the content on the caller's profile. |
| UserApi.StoredAvatarDecodes | addons/api_training_course/controllers/user_api.py:249-253 | The stored avatar decodes back to the uploaded bytes. |
| UserApi.SearchResults | addons/api_training_course/controllers/user_api.py:285-290 | Only profiles whose user name, job title or company contains the query (ignoring case), at most `limit`, and all of them when there is no limit. |
| UserApi.SearchListsFirstFound | addons/api_training_course/controllers/user_api.py:285-290 | Over an ascending listing the search returns the first `min(limit, n)` of the `n` found profiles (all `n` with no limit), in ascending id order: every found profile left out comes after every profile returned. |
| UserApi.SearchCount | addons/api_training_course/controllers/user_api.py:285-290 | Over the whole store the search returns `min(limit, n)` profiles, where `n` is the number of profiles the domain matches (all `n` with no limit). |
| UserApi.PublicViews | addons/api_training_course/controllers/user_api.py:292-295 | Search results are shown in their public view. |
| UserApi.SearchUsers | addons/api_training_course/controllers/user_api.py:265-305 | A limit `int()` refuses gives 500; then an empty `q` gives 400, and a negative limit 500. The limit is `min(given, 50)`, default 10. Success returns the public views of `SearchResults` over the whole store, which `SearchListsFirstFound` and `SearchCount` pin to the first `min(limit, n)` found profiles. |
| UserApi.Ranked | addons/api_training_course/controllers/user_api.py:325-335 | Entry k of the board ranks the k-th listed profile as k + 1. |
| UserApi.RankedNext | addons/api_training_course/controllers/user_api.py:325-335 | Each loop step appends the next rank. |
| UserApi.RankRows | addons/api_training_course/controllers/user_api.py:325-335 | The loop builds the ranked board. |
| UserApi.Leaderboard | addons/api_training_course/controllers/user_api.py:308-344 | The limit is `min(given, 50)`, default 10. The board ranks the first `limit` profiles 1..n with n at most the limit; a bad limit gives 500. |

## Left out

- Ordering. `_order` and `order=` are not modelled, including the
  leaderboard's `posts_count desc` on a non-stored field. Listings, searches
  and the leaderboard go by ascending id.
- UserApi.Leaderboard: the ranks follow ascending id, not descending post
  count, because ordering is left out.
- Mail tracking (`mail.thread`), `sudo()`, route authentication and the
  logging in every handler.
- Floats. Estimated and actual hours are integers here; only their
  non-negativity matters. The Float conversion is not modelled: hours given
  as decimal text such as "1.5" are refused here, where the ORM stores 1.5.
- Dates. Dates and datetimes are day and second numbers. `today` and
  `now` are parameters instead of clock reads.
- Fields.AsDate: a falsy value clears the date and a day number is stored,
  but a non-empty date text such as "2024-01-31" is refused, because dates
  are day numbers and date text is not parsed.
- Unicode. Strings are ASCII: `lower`, `isalnum` and `isspace` follow their
  ASCII behaviour, `int()` reads ASCII digits only (Python also reads other
  Unicode decimal digits), and `ilike` folds ASCII case only. SQL wildcards inside
  an `ilike` pattern are not interpreted.
- BlogPostModel.DecodeVals: the HTML sanitiser applied to the content field
  is not modelled; the content is stored as given.
- Concurrency and transactions. The counters are sequential +1 steps.
- Committed refusals. The ORM inserts or updates a row before its
  constraints run, and every create and update handler catches the
  ValidationError and returns normally, so the request commits the refused
  row. The stores (`PostStore`, `TaskStore`, `ProfileStore`) leave the
  store unchanged on an error instead, and keep `Sound` for every record.
  `TaskModel.InsertedTask` and the two `Rejected*Committed` lemmas show the
  committed row for tasks; the same holds for `BlogApi.CreatePost`,
  `BlogApi.UpdatePost`, `TaskApi.UpdateTask` and `UserApi.UpdateMyProfile`.
- Foreign keys. Whether a referenced user exists is not checked: a
  many2one is an id, and user names come from a map. The ORM's own error
  texts are modelled as fixed messages.
- An unset Char field is "" here; Odoo reads it as False.
- JSON key order and the exact serialisation text.
- UserApi.UploadAvatar: the uploaded file is its byte sequence; reading the
  stream is not modelled.
- TaskModel.TaskStore.Unlink: the model has no delete guard for tasks, and
  none is modelled.
- `_check_due_date` (models/api_task.py:176-184) does nothing, so it adds
  no constraint.
- The model-level `get_my_tasks` and `get_overdue_tasks`
  (models/api_task.py:238-246) are the same searches as the controller's
  `MyTaskIds` (with no status) and `OverdueIds`.
- ProfileModel.UrlMatch: the URL pattern is modelled part by part (scheme,
  domain name, `localhost` or IPv4 address, port, path), with ASCII case
  folding.
- `controllers/main.py` (static documentation and a health check) and the
  manifests are not part of this model.

## Findings

| source | as written | input that shows it | evidently intended | confidence | as-written member | corrected member |
|---|---|---|---|---|---|---|
| addons/api_training_course/controllers/task_api.py:213-229 | `create` inserts the task, the constraint then raises, and the handler catches the error and returns `success: false`; the request commits the inserted row | POST `/api/training/tasks` with `{"name": "x", "estimated_hours": -1}` | a refused task is not stored, so every stored task keeps its hours and progress in range | not executed | TaskModel.RejectedTaskCommitted | TaskModel.TaskStore.Create |
