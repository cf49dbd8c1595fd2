# REST_Blog request-decision layer in Dafny

This project models the server side of a small blog service written in
Node.js and Express. Users log in and get a JWT. Posts can be created,
listed, read, partially updated and deleted. View grants can be added to or
removed from a post. The model covers which HTTP status each request gets
and what the request does to the data and to the client's session.

MySQL is replaced by an abstract store in the class `App.Blog`:

- `posts`: a map from post id to title, content, author and creation time.
- `grants`: a set of (post id, user id) pairs, the `post_permissions` table.
- `users`: a map from username to id, password hash and role.
- `nextId`: the table's auto-increment counter.

The express-session record of one client is the class `Auth.Session`, with
an optional `token`, `role` and `userId`.

Request values are JSON scalars (`Values.Json`: a string or an integer).
The login username and password are strings.
The title and content of a create or patch may also be absent. The handlers
test them with JavaScript truthiness (`Values.Truthy`), so an absent field,
`""` and `0` all count as "not supplied". A post's `author` is whatever the
client sent. The guards compare it with the caller's `userId` for equality
of values; see "## Left out" for how this differs from MySQL's comparison.

Modules:

- `Values`: JSON scalars and truthiness.
- `Text`: `String.prototype.split` on one character, and its inverse `join`.
- `Store`: posts, users, grants, responses, and the ownership query.
- `Auth`: public/js/middleware/auth.js. It holds `verifyToken`, both as the
  pure session transition `Authenticate` and as the method
  `Session.VerifyToken` proved equal to it. It also holds the two guards.
- `App`: app.js. It holds the handlers as methods of `Blog`, and each
  guarded route as a method that chains `verifyToken`, the guard and the
  handler, as Express does.

Three things come from outside the code and enter as oracles:

- JWT signature checking and expiry: `verify: string -> Option<Claims>`.
- JWT signing: `sign: Claims -> string`.
- bcrypt's password comparison: `passwordMatches`.

The clock enters as the `createdAt` argument.

Two facts about the guards shape the model:

- `checkOwnershipOrAdmin` compares the caller's `userId`, not a username,
  with the post's `author` (public/js/middleware/auth.js:53-54), and so does
  `checkViewPermission` (public/js/middleware/auth.js:37).
- Neither guard reads `post_permissions`, so a grant never lets a caller
  through (`Auth.CheckViewPermission` does not take the grants as an
  argument).

## Model

| member | source | states |
|---|---|---|
| `Text.Split` | public/js/middleware/auth.js:13 | `split(" ")` yields at least one part, none of which contains a space, and the parts joined by spaces give back the header; there is exactly one part iff the header has no space |
| `Text.SplitAfterPart` | public/js/middleware/auth.js:13 | a space-free first field followed by a space splits off as that field, and the rest splits as before |
| `Text.SplitJoin` | public/js/middleware/auth.js:13 | round trip: splitting the join of space-free fields returns those fields |
| `Auth.BearerToken` | public/js/middleware/auth.js:13-14 | a token found is non-empty and has no space; a header with no space yields no token |
| `Auth.BearerTokenOfFields` | public/js/middleware/auth.js:13-14 | the token is the second space-separated field when there is one and it is non-empty, and absent otherwise; so "Bearer", "Bearer " and a double space give 401 |
| `Auth.BearerTokenOfScheme` | public/js/middleware/auth.js:13 | `"Bearer " + t` yields `t` for any non-empty, space-free `t` |
| `Auth.Authenticate` | public/js/middleware/auth.js:6-28 | a cached userId and role are used whatever the header; 401 "Access denied" iff nothing is cached and there is no token; 403 "Invalid token" iff nothing is cached and the verifier rejects the token; a refused request leaves the session unchanged; a passing request leaves its identity in the session; the token field is never touched |
| `Auth.VerifiedIdentityIsCached` | public/js/middleware/auth.js:8-23 | after a successful verification with truthy claims, the next request takes the cache path and passes as the same caller, whatever header it carries |
| `Auth.FalsyClaimsAreNotCached` | public/js/middleware/auth.js:8-21 | verified claims with a falsy userId or role are stored but not trusted on the next request |
| `Auth.Session.constructor` | app.js:22-27 | a new session holds no token, role or userId |
| `Auth.Session.VerifyToken` | public/js/middleware/auth.js:6-28 | the new session and the outcome are exactly those of `Authenticate` |
| `Auth.CheckViewPermission` | public/js/middleware/auth.js:30-44 | passes iff the role is "admin" or a post with that id has author equal to the caller's userId; otherwise 403 "Permission denied", also for a post that does not exist |
| `Auth.CheckOwnershipOrAdmin` | public/js/middleware/auth.js:46-60 | passes iff the role is "admin" or the post exists with author equal to the caller's userId; otherwise 403 "Permission denied" |
| `App.ApplyAll` | app.js:170-186 | the UPDATE leaves author and creation time alone, and leaves title or content alone when no clause names it |
| `App.ApplyAllPush` | app.js:173-183 | pushing one more SET clause applies it after the earlier ones |
| `App.UsersGranted` | app.js:248-255 | the listed user ids for a post are exactly those granted on that post |
| `App.GrantIsListed` | app.js:204 | after a grant, the post's listing is the old listing plus that user |
| `App.RevokeIsUnlisted` | app.js:216 | after a revoke, the post's listing loses exactly that user, other posts' listings are unchanged, and revoking an absent pair changes nothing |
| `App.ReloginKeepsCachedUser` | app.js:66-67 | logging in again on a session with a cached identity keeps the old userId with the new role, and verifyToken trusts that mixture |
| `App.LoginTokenAuthenticates` | app.js:61-68 | after login on a fresh session nothing is cached, so a request without a header gets 401; "Bearer " + the returned token authenticates as the logged-in user |
| `App.Blog.Login` | app.js:54-76 | unknown username or failed password check: 401 "Invalid credentials" and the session unchanged; success: 200 with the signed token and role, session token and role set, session userId not written |
| `App.Blog.CreatePost` | app.js:97-116 | a falsy title or content: 400 and nothing changes; otherwise exactly one post with the given title, content and author is inserted under a fresh id, 201 returns that id, and grants are untouched |
| `App.Blog.ListPosts` | app.js:119-127 | 200 with every stored post, unfiltered |
| `App.FindPost` | app.js:135-139 | the post lookup both read handlers share: 404 with the given message iff no post has the id, otherwise 200 with that post |
| `App.Blog.GetPost` | app.js:130-143 | 404 "Blog post not found" iff no post has the id; otherwise 200 with that post; reads only |
| `App.Blog.DeletePost` | app.js:146-159 | absent id: 404 and the store unchanged; otherwise exactly that post is removed, every other post and all grants untouched |
| `App.Blog.PatchPost` | app.js:162-194 | neither content nor title truthy: 400, nothing changes; absent id: 404; otherwise only the truthy fields of that post are overwritten, every other field and post unchanged |
| `App.Blog.GrantPermission` | app.js:199-209 | the pair is added to the grants, nothing else changes, 200 |
| `App.Blog.RevokePermission` | app.js:212-221 | the pair is removed from the grants, 200 even when it was absent, no other pair touched |
| `App.Blog.FetchPost` | app.js:224-234 | 404 "Post not found" iff no post has the id; otherwise 200 with that post |
| `App.Blog.ListPermissions` | app.js:248-255 | 200 with exactly the user ids granted on that post |
| `App.Blog.CreateBlogRoute` | app.js:97 | an unauthenticated request is refused with verifyToken's response and creates nothing; an authenticated caller with a falsy title or content gets 400 and nothing changes; otherwise any authenticated caller creates exactly one post, under any author, with 201 and a fresh id, and the id counter moves past it |
| `App.Blog.DeleteBlogRoute` | app.js:146 | 200 iff authenticated, the post exists, and the caller is admin or its author; a non-admin non-author gets 403 even for a missing post, so only admins see 404; 200 answers "Blog post deleted" and 404 "Blog post not found"; only a 200 removes anything, and the id counter never moves back |
| `App.Blog.PatchBlogRoute` | app.js:162 | only an authenticated admin or author changes a post; others get 403; an authorized caller who supplies no truthy field gets 400 "No fields to update", and one who does on a missing post gets 404 "Blog post not found"; 200 iff authorized, the post exists and a field was supplied; on 200 only the truthy fields of that post are overwritten; every other post and the id counter are unchanged |
| `App.Blog.GrantRoute` | app.js:199 | a grant is added iff the caller is authenticated and is admin or the post's author; an authenticated non-admin non-author gets 403 "Permission denied"; 200 answers "Permission added"; holding a grant is not enough; posts and the id counter are unchanged |
| `App.Blog.RevokeRoute` | app.js:212 | a grant is removed iff the caller is authenticated and is admin or the post's author; an authenticated non-admin non-author gets 403 "Permission denied"; 200 answers "Permission removed"; posts and the id counter are unchanged |
| `App.Blog.FetchPostRoute` | app.js:224 | a non-admin gets the post iff they are its author, else 403 (also for a missing post, whatever the grants); an admin gets any post or 404 |
| `App.CreateDeleteCreate` | app.js:108-111 | two successful creates through the route, with a delete of the first post in between, return different ids, the second larger |

## Left out

- `App.Blog.Login`: username and password are strings. An absent or non-string password for an existing user makes the bcrypt call throw, which the source answers with 500 "Database error" (app.js:60, 72-74); this is not modelled.
- Store faults: every `catch` that answers 500 is left out. Each handler models a store that answers every query.
- Logout and the static-file, HTML, redirect and documentation routes (app.js:30-51, 81-93, 259-416) are not modelled: they only serve pages or fixed data.
- `GET /api/users` (app.js:237-245) is not modelled: it only returns the users table.
- JWT signing, signature checking and expiry, and bcrypt, are oracles: the model does not say what a valid token or a matching password is.
- Session lifetime (app.js:26) and cookie handling are not modelled: a `Session` object stands for one client's live session.
- Creation timestamps come from the `createdAt` argument, not from a clock.
- SQL text is not modelled. PATCH's SET list is modelled as a sequence of column assignments, not as a string.
- Usernames are matched exactly at login. A case- or accent-insensitive column collation in MySQL is not modelled.
- Route parameters are taken as already-numeric post ids. A non-numeric id that MySQL would coerce is not modelled.
- Request bodies are JSON scalars. Objects, arrays, booleans, null and non-integer numbers in a field are not modelled.
- `App.Blog.CreatePost`: the author is always a value. An absent `author` (app.js:98), which the source stores as NULL, is not modelled.
- `App.Blog.GrantPermission`: the user id is always a value. An absent body `userId` (app.js:201), which the source stores as NULL, is not modelled.
- Values are compared structurally: `Str("5")` and `Num(5)` differ. MySQL's type coercion and column typing are not modelled. In MySQL an author of "5" or "5abc" matches userId 5 in the guards (public/js/middleware/auth.js:37, 53-54). Likewise a grant posted with the number 7 (app.js:201, 204) is removed by a revoke whose route parameter is the string "7" (app.js:213, 216), while the model's `App.Blog.RevokePermission` with `Str("7")` leaves `(p, Num(7))` in place.
- `App.Blog.GrantPermission`: grants are a set. A duplicate grant leaves the set as it was. A unique key on `post_permissions` would turn a duplicate into a 500, and the schema is not part of this model.
- `App.Blog.PatchPost`: 404 is answered iff no post has the id. This assumes the driver reports matched rows, not only changed rows, as `affectedRows`.
- `Auth.CheckOwnershipOrAdmin` and `App.Blog.ListPermissions` use the callback form of `db.query` on a promise pool (public/js/middleware/auth.js:54, app.js:251). The model gives the query they express. What the mysql2 library does with that call form is not part of this model.
- `Auth.CheckViewPermission` awaits its query with no `catch`, while `checkOwnershipOrAdmin` answers 403 when its query fails. What a failing query does in either guard is not modelled.
- Concurrency: each request runs to completion before the next starts. The guard-then-mutate race between requests is not modelled.
