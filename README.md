# DevConnector core, modelled in Dafny

This project models the in-memory logic of a small developer social network (an Express and
Mongoose backend with a React and Redux client). It covers:

- the post handlers (`routes/api/posts.js`): creating a post, deleting a post behind an ownership
  check, likes kept to one per user, and comments with an ownership-checked delete;
- the profile handlers (`routes/api/profile.js`): the `profileFields` builder, the skills parser
  (`split(',')` then `trim()`), create-or-update with at most one profile per user, and the
  `experience` and `education` lists;
- registration (`routes/api/users.js`): validation, the duplicate-email check, creation of the
  user with a gravatar avatar and a bcrypt-hashed password, and the signed token;
- the client auth reducer (`client/src/reducers/auth.js`) and the register form's `onChange` and
  `onSubmit` (`client/src/components/auth/Register.js`).

Modules, one per source file plus two for the JavaScript built-ins:

- `Common` (common.dfy): ids as strings, `Option`, the `Reply` of a handler, truthiness.
- `JsArray` (js_array.dfy): `indexOf`, `map`, `filter`, `find`, `splice(i, 1)`, and the
  specification `RemoveFirst` ("drop the first element with this key") that every delete-by-id is
  proved against.
- `JsString` (js_string.dfy): `split` on one character, `join`, `trimStart`, `trimEnd`, `trim`
  with ECMAScript's whitespace set.
- `Posts` (posts.dfy): the `Post` class whose `likes` and `comments` sequences the handlers change
  in place, and the `PostStore` map from post id to post.
- `Profiles` (profile.dfy): the field builder, the `Profile` class with its `experience` and
  `education` sequences, and the `ProfileStore` map from profile id to profile.
- `Users` (users.dfy): the `UserStore` map from user id to user and its `Register` method.
- `AuthReducer` (auth_reducer.dfy) and `RegisterForm` (register_form.dfy): pure functions.

The database is an abstract map from id to document. Ids are strings because the handlers compare
them through `toString()`. Identifiers the store assigns (new post, profile, user, comment and
sub-document ids) are parameters, and the store guarantees they are fresh. The foreign libraries
(express-validator's `isEmail`, `gravatar.url`, bcrypt's `genSalt` and `hash`, `jwt.sign` and the
configured secret) are the function-valued fields of an injected `Users.Libraries` value. The
randomness of `genSalt` is its `entropy` argument. Local storage, which the reducer writes, is the
`stored` component of each reducer step.

The experience and education routes (routes/api/profile.js:213-236, 289-312) have no ownership
check of their own: the profile is looked up by the caller's id, so only the caller's own lists can
change.

## Model

| member | source | states |
|---|---|---|
| `Common.IfPresent` | routes/api/profile.js:64-69 | `if (f) target = f`: the result holds the field exactly when it is truthy (present and non-empty). |
| `JsArray.IndexOf` | routes/api/posts.js:147-149 | `indexOf` is -1 exactly when the value is absent; otherwise the index holds the value and no earlier index does. |
| `JsArray.Map` | routes/api/posts.js:148 | `map(f)` has the input's length and holds `f` of the element at each index. |
| `JsArray.Filter` | routes/api/posts.js:115-117 | `filter` keeps only matching elements of the input and every matching element; its length is 0 exactly when no element matches, and the full length exactly when all match. |
| `JsArray.Find` | routes/api/posts.js:210-212 | `find` gives nothing exactly when no element matches; otherwise it gives the element at the first matching index. |
| `JsArray.RemoveAt` | routes/api/posts.js:151 | `splice(i, 1)` with `i` in range drops element `i` and keeps the prefix and suffix. A start past the end drops nothing, and -1 drops the last element. |
| `JsArray.RemoveAtMultiset` | routes/api/posts.js:230 | `splice(i, 1)` with `i` in range takes exactly the element at `i` out of the multiset of elements. |
| `JsArray.SpliceAtIndexOfIsRemoveFirst` | routes/api/profile.js:219-229 | When the key is present, `splice(map(key).indexOf(k), 1)` equals the specification "remove the first element with key k". |
| `JsArray.RemoveFirstAt` | routes/api/posts.js:147-151 | Removing the first match at index i leaves exactly `s[..i] + s[i+1..]`, so the other elements keep their order. |
| `JsArray.RemoveFirstRemovesOne` | routes/api/posts.js:151 | When some element has the key, removal shortens the list by one and takes away exactly one element carrying that key (multiset). |
| `JsArray.RemoveFirstKeepsUnique` | routes/api/posts.js:140-151 | On a list with unique keys, removal keeps keys unique and leaves no element with the removed key. |
| `JsArray.PrependThenRemoveFirst` | routes/api/posts.js:121 | Prepending an element and then removing its key gives the original list back. |
| `JsString.Split` | routes/api/profile.js:73 | `split(sep)` yields at least one piece, and no piece contains the separator. |
| `JsString.SplitCount` | routes/api/profile.js:73 | The number of pieces is the number of separators plus one. |
| `JsString.JoinSplit` | routes/api/profile.js:73 | Joining the pieces with the separator gives the input back. |
| `JsString.TrimStart` | routes/api/profile.js:74 | The result is a suffix of the input, everything dropped is whitespace, and it does not start with whitespace. |
| `JsString.TrimEnd` | routes/api/profile.js:74 | The result is a prefix of the input, everything dropped is whitespace, and it does not end with whitespace. |
| `JsString.Trim` | routes/api/profile.js:74 | `trim()` returns a contiguous stretch of the input that neither starts nor ends with whitespace, with only whitespace outside it. |
| `Posts.LikesBy` | routes/api/posts.js:115-117 | The caller's likes are non-empty exactly when some like belongs to the caller. |
| `Posts.FindComment` | routes/api/posts.js:210-212 | Finds nothing exactly when no comment has the id; otherwise finds the comment with that id at the first index carrying it. |
| `Posts.CommentRemoveIndexAsWritten` | routes/api/posts.js:226-228 | As written, once the ownership check has passed on a non-empty list, the remove index is always 0. |
| `Posts.CommentRemoveIndex` | routes/api/posts.js:226-228 | Corrected index: whenever the comment exists, it is the index of the comment that `find` returned. |
| `Posts.Post.constructor` | routes/api/posts.js:25-30 | A new post carries the caller as owner, the text, and the author's name and avatar, with no likes and no comments. |
| `Posts.Post.Like` | routes/api/posts.js:110-130 | A repeated like gives 400 'This post is already liked' and leaves `likes` alone. Otherwise `{user: caller}` is put in front of the old likes. The one-like-per-user invariant is kept. |
| `Posts.Post.Unlike` | routes/api/posts.js:135-160 | With no like by the caller: 400 'Post has not yet been liked' and `likes` unchanged. Otherwise the caller's first like is removed. The invariant is kept, and the caller no longer appears afterwards. |
| `Posts.Post.AddComment` | routes/api/posts.js:165-199 | Empty text gives 400 'Text is required' with no change. Otherwise the caller's comment, with the author's name and avatar, goes in front of the old comments. |
| `Posts.Post.DeleteComment` | routes/api/posts.js:204-239 | As written: 404 'Comment does not exist' for an unknown id and 401 'User is not authorized to delete comment' for a foreign comment, each with no change. Otherwise the FIRST comment is removed. |
| `Posts.Post.DeleteCommentById` | routes/api/posts.js:204-239 | Corrected delete: the same two refusals, and on success exactly the comment with that id is removed (first match, multiset loses that comment). |
| `Posts.PostStore.Create` | routes/api/posts.js:13-41 | Empty text gives 400 'Text is required' and leaves the store alone. Otherwise exactly one fresh post is added under the new id, built from the caller, the text and the author, and all other posts are untouched. |
| `Posts.PostStore.Delete` | routes/api/posts.js:81-105 | An absent post gives 404 'Post not found'. A different owner gives 401 'User not authorized to delete post' and the post stays. Otherwise the post is removed with 'Post has been removed'. |
| `Posts.LikeThenLikedBy` | routes/api/posts.js:115-121 | After a like the caller is among the likers, so a second like is refused. |
| `Posts.UnlikeUndoesLike` | routes/api/posts.js:121 | Unlike after like restores the previous likes. |
| `Posts.UnlikeRemovesFirstMatch` | routes/api/posts.js:147-151 | The removed like is the caller's first one: no earlier like is the caller's, and the rest keep their order. |
| `Posts.DeleteCommentRemovesWrongComment` | routes/api/posts.js:226-230 | Counterexample: with Alice's comment before Bob's, Bob deleting his own comment removes Alice's as written, and removes his own with the corrected index. |
| `Profiles.ParseSkills` | routes/api/profile.js:70-75 | Entry i is the trimmed i-th comma-separated piece of the input. So there is one entry more than the input has commas, no entry contains a comma, and no entry starts or ends with whitespace. |
| `Profiles.ProfileFieldsFor` | routes/api/profile.js:61-82 | `user` is always the caller. Each optional field is present exactly when its input is truthy, and then holds that input. `skills`, when present, is the parsed skills input. `social` is always there. |
| `Profiles.SocialFor` | routes/api/profile.js:76-82 | Each of the five social links is present exactly when its input is truthy. |
| `Profiles.BuildProfileFields` | routes/api/profile.js:61-75 | The key-by-key construction yields exactly `ProfileFieldsFor`. |
| `Profiles.BuildSocial` | routes/api/profile.js:76-82 | Starting from `{}` and adding truthy links yields exactly `SocialFor`. |
| `Profiles.Merge` | routes/api/profile.js:90-94 | `$set`: each of the seven optional keys the update carries replaces the stored one, each it lacks keeps its stored value, and `user` and `social` (as a whole) come from the update. |
| `Profiles.MergeIdempotent` | routes/api/profile.js:90-94 | Applying the same update twice equals applying it once. |
| `Profiles.ProfileErrors` | routes/api/profile.js:38-45 | No errors exactly when status and skills are both non-empty; each message appears exactly when its field is missing, at most once, with no other message, and the status message comes first. |
| `Profiles.ExperienceErrors` | routes/api/profile.js:174-182 | No errors exactly when title, company and from are non-empty; each message appears exactly when its field is missing, at most once, with no other message; the first failing check's message comes first and the from message last. |
| `Profiles.EducationErrors` | routes/api/profile.js:245-255 | No errors exactly when school, degree, fieldofstudy and from are non-empty; each message appears exactly when its field is missing, at most once, with no other message; the messages follow the declared order school, degree, fieldofstudy, from. |
| `Profiles.Profile.constructor` | routes/api/profile.js:99 | A new profile holds the built fields, its owner is their `user`, and its lists are empty. |
| `Profiles.Profile.AddExperience` | routes/api/profile.js:170-209 | Validation failures give 400 with the error list and no change. Otherwise the new entry is at index 0 and the old entries follow unchanged. |
| `Profiles.Profile.DeleteExperience` | routes/api/profile.js:213-236 | An unknown id gives 400 'No such entity' with no change. Otherwise exactly the first entry with that id is removed. |
| `Profiles.Profile.AddEducation` | routes/api/profile.js:241-284 | Validation failures give 400 with the error list and no change. Otherwise the new entry is at index 0 and the old entries follow unchanged. |
| `Profiles.Profile.DeleteEducation` | routes/api/profile.js:289-312 | An unknown id gives 400 'No such entity' with no change. Otherwise exactly the first entry with that id is removed. |
| `Profiles.ProfileStore.HasProfile` | routes/api/profile.js:86 | `Profile.findOne({ user })` finds a profile exactly when the user is among the owners of the stored profiles. |
| `Profiles.ProfileStore.CreateOrUpdate` | routes/api/profile.js:86-102 | Validation failures give 400 and change nothing. Otherwise the caller has a profile afterwards. An existing one is merged in place, with the map and other users' profiles unchanged. If there was none, exactly one fresh profile is added and every existing profile keeps its details. "One profile per user" is preserved. |
| `Profiles.DeleteUndoesAddExperience` | routes/api/profile.js:200-229 | Deleting a just-added experience entry by its id restores the list. |
| `Profiles.DeleteUndoesAddEducation` | routes/api/profile.js:275-305 | Deleting a just-added education entry by its id restores the list. |
| `Users.RegistrationErrors` | routes/api/users.js:17-28 | No errors exactly when the name is non-empty, the email is valid and the password has at least 6 characters; each message appears exactly when its check fails, at most once, with no other message, in the declared order name, email, password. |
| `Users.UserStore.EmailTaken` | routes/api/users.js:34 | `User.findOne({ email })` finds a user exactly when the email is among the stored users' emails. |
| `Users.UserStore.Register` | routes/api/users.js:14-81 | Validation errors: 400 with the list and no write. A taken email: 400 'User already exists' and no write. Otherwise the table gains exactly one user under the new id, with the given name and email, the gravatar (s=200, r=pg, d=mn) of the email, and `hash(password, genSalt(10))` as password. The token signs `{user:{id}}` with expiresIn 36000. Email uniqueness is preserved. |
| `AuthReducer.InitialState` | client/src/reducers/auth.js:4-10 | The token comes from storage, isAuhtenticated is null, loading is true, and user is null. |
| `AuthReducer.StorageString` | client/src/reducers/auth.js:17 | `localStorage.setItem` keeps a string: the token itself, "undefined" for a missing one and "null" for a null one. |
| `AuthReducer.Spread` | client/src/reducers/auth.js:18-19 | `{...state, ...payload}`: payload keys override the state's, and the others stay. |
| `AuthReducer.Reduce` | client/src/reducers/auth.js:12-36 | REGISTER_SUCCESS: authenticated and not loading whatever the payload holds, payload keys override, and storage holds the payload token. REGISTER_FAIL: token null, not authenticated, not loading, user kept, storage cleared. Any other action: state and storage unchanged. |
| `AuthReducer.RegisterFailIdempotent` | client/src/reducers/auth.js:24-32 | REGISTER_FAIL applied twice equals applying it once. |
| `AuthReducer.RegisterSuccessStoresStateToken` | client/src/reducers/auth.js:17-23 | After REGISTER_SUCCESS with a token, the state's token and the stored token are that token. |
| `AuthReducer.MissingTokenSurvivesReload` | client/src/reducers/auth.js:4-23 | After REGISTER_SUCCESS with a missing or null token, storage still holds a string, so the next initial state carries the token "undefined" or "null". |
| `RegisterForm.OnChange` | client/src/components/auth/Register.js:18-19 | The named field takes the new value and the other three are unchanged. |
| `RegisterForm.OnSubmit` | client/src/components/auth/Register.js:21-31 | An empty name, email or password gives 'name and password are required fields' (danger), before the mismatch check. A password mismatch gives 'password doesnt match'. The form is accepted exactly when the three are non-empty and the passwords match. |
| `RegisterForm.InitialFormRejected` | client/src/components/auth/Register.js:8-13 | All four initial fields are empty, so submitting the initial form raises the required-fields alert. |
| `RegisterForm.EmptyConfirmationIsMismatch` | client/src/components/auth/Register.js:23-28 | `password2` is not checked for emptiness, so an empty confirmation next to a non-empty password gives the mismatch alert. |

## Left out

- HTTP routing, middleware chaining and response plumbing. A `Reply` stands for the status and body the handler sends.
- The JWT verification middleware (`middleware/auth`) is not part of this model. Each handler receives the caller's id as a parameter.
- The login route and the `models/*` schemas are not part of this model.
- Mongoose query semantics: `populate`, `find().sort({date: -1})`, and the nested-path details of `$set` (`Profiles.Merge` models the top-level key replacement only).
- Posts.PostStore.Delete: ids are plain strings, so the cast failure of a malformed post id is not modelled. There the handler answers 400 'Post not found' (routes/api/posts.js:99-102, `err.kind == 'ObjectId'`); the model answers 404 for every absent id.
- The cascade delete of a profile, its user and their posts (routes/api/profile.js:145-164), and the read-only GET routes.
- The GitHub repository proxy (routes/api/profile.js:317-341): network I/O and JSON parsing.
- bcryptjs, jsonwebtoken, gravatar and `isEmail` are uninterpreted functions. Hashing, signing and token encoding are not modelled beyond their inputs.
- The catch-all 500 paths. This includes, for example, the dereference of a missing post or profile (routes/api/posts.js:112-121, 137-141, 177-187, 207-212, routes/api/profile.js:198-200, 216-219, 273-275, 292-297) and a missing user record, and the `res.send(500).send` mistake at routes/api/users.js:78. The Post and Profile methods run on an already loaded document, and `author` is the already loaded user record.
- `async`/`await`, concurrency between requests and `console` logging.
- Request-body fields that are not strings (an array given for `skills`, for example) are not modelled. `skills.toString()` is the identity on the string inputs the model takes.
- Users.RegistrationErrors: the password length is the number of Unicode characters, which is how `isLength` counts surrogate pairs; recent validator versions also leave out the variation selectors U+FE0E and U+FE0F, which the model counts. Missing body fields are modelled as empty strings.
- AuthReducer.Spread: payload keys other than `token` and `user` are not modelled. The reducer overrides `isAuhtenticated` and `loading` in any case, and any other payload key would only add a field the model does not track.
- RegisterForm.OnChange: only the four named inputs are modelled. An event naming any other field, which would add a key, is not.
- Client rendering (JSX, `connect`, the Spinner and Education components) and the `setAlert` action itself. `OnSubmit` returns the alert it would raise.

## Findings

| source | as written | input that shows it | evidently intended | confidence | as-written member | corrected member |
|---|---|---|---|---|---|---|
| routes/api/posts.js:226-230 | The `map` callback ignores its argument and maps every comment to the owner of the comment found. After the ownership check, `indexOf(caller)` is therefore always 0, so `splice` removes the first comment. | Comments `[c1 by alice, c2 by bob]`. Bob deletes `c2`: both checks pass, and `c1` (Alice's) is removed while `c2` stays. | Remove the comment that was found: the index of `comment_id` among the comment ids. | high; not executed | `Posts.Post.DeleteComment` (with `Posts.DeleteCommentRemovesWrongComment`) | `Posts.Post.DeleteCommentById` |
