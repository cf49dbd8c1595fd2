/**
 * The request handlers of app.js: login, the blog-post CRUD routes and the
 * view-permission routes, over an abstract store in place of MySQL. Each
 * route that app.js guards is modelled twice: the handler alone, and the
 * route as Express runs it, verifyToken first, then the guard, then the
 * handler.
 *
 * Password checking (bcrypt) and token signing (JWT) are the oracles
 * `passwordMatches` and `sign`; the wall clock is the `createdAt` argument.
 */
module App {
  import opened Values
  import opened Store
  import opened Auth

  /** One `column = ?` clause of the UPDATE that the PATCH handler builds. */
  datatype Assignment = SetContent(content: Json) | SetTitle(title: Json)

  function Assign(post: Post, a: Assignment): Post
  {
    match a
    case SetContent(c) => post.(content := c)
    case SetTitle(t) => post.(title := t)
  }

  /** The row after `UPDATE posts SET <assignments>`, clauses taken in order. */
  function ApplyAll(post: Post, assignments: seq<Assignment>): (r: Post)
    // an UPDATE changes only the columns its SET list names
    ensures r.author == post.author && r.createdAt == post.createdAt
    ensures (forall i :: 0 <= i < |assignments| ==> !assignments[i].SetTitle?) ==> r.title == post.title
    ensures (forall i :: 0 <= i < |assignments| ==> !assignments[i].SetContent?) ==> r.content == post.content
    decreases |assignments|
  {
    if assignments == [] then post else ApplyAll(Assign(post, assignments[0]), assignments[1..])
  }

  /** Pushing one more clause applies it after all the earlier ones. */
  lemma {:induction false} ApplyAllPush(post: Post, assignments: seq<Assignment>, a: Assignment)
    ensures ApplyAll(post, assignments + [a]) == Assign(ApplyAll(post, assignments), a)
    decreases |assignments|
  {
    if assignments != [] {
      assert (assignments + [a])[1..] == assignments[1..] + [a];
      ApplyAllPush(Assign(post, assignments[0]), assignments[1..], a);
    }
  }

  /** The user ids that `SELECT user_id FROM post_permissions WHERE post_id = ?`
      returns. */
  function UsersGranted(grants: set<Grant>, postId: PostId): (ids: set<Json>)
    ensures forall u :: u in ids <==> (postId, u) in grants
  {
    set g | g in grants && g.0 == postId :: g.1
  }

  /** A granted user is listed for that post afterwards. */
  lemma GrantIsListed(grants: set<Grant>, postId: PostId, userId: Json)
    ensures UsersGranted(grants + {(postId, userId)}, postId) == UsersGranted(grants, postId) + {userId}
  {
  }

  /** A revoked user is no longer listed; nobody else's listing changes, and
      revoking a pair that was never granted changes nothing. */
  lemma RevokeIsUnlisted(grants: set<Grant>, postId: PostId, userId: Json, other: PostId)
    ensures UsersGranted(grants - {(postId, userId)}, postId) == UsersGranted(grants, postId) - {userId}
    ensures other != postId ==> UsersGranted(grants - {(postId, userId)}, other) == UsersGranted(grants, other)
    ensures (postId, userId) !in grants ==> grants - {(postId, userId)} == grants
  {
  }

  /** Logging in again on a session whose identity is already cached replaces
      the role but keeps the cached userId, and verifyToken then trusts the
      mixture: the caller acts as the old user with the new user's role. */
  lemma ReloginKeepsCachedUser(s: SessionState, token: string, role: string,
                               authorization: Option<string>, verify: string -> Option<Claims>)
    requires CacheHit(s) && role != ""
    ensures Authenticate(s.(token := Some(token), role := Some(role)), authorization, verify).1
              == Next(Identity(s.userId.value, role))
  {
  }

  /** Logging in on a fresh session does not cache an identity, so the first
      guarded request still needs its bearer token; the token that login
      returned authenticates it as the logged-in user, provided the verifier
      accepts what the signer produced and the token holds no space. */
  lemma {:induction false} LoginTokenAuthenticates(s: SessionState, username: string, user: User,
                                                  sign: Claims -> string, verify: string -> Option<Claims>)
    requires s.userId.None?
    requires var c := Claims(Num(user.id), username, user.role);
             verify(sign(c)) == Some(c) && sign(c) != "" && ' ' !in sign(c)
    ensures var token := sign(Claims(Num(user.id), username, user.role));
            var s' := s.(token := Some(token), role := Some(user.role));
            !CacheHit(s') &&
            Authenticate(s', None, verify).1 == Halt(AccessDenied) &&
            Authenticate(s', Some("Bearer " + token), verify).1 == Next(Identity(Num(user.id), user.role))
  {
    var token := sign(Claims(Num(user.id), username, user.role));
    BearerTokenOfScheme("Bearer", token);
    assert "Bearer " + token == "Bearer" + " " + token;
  }

  /** `SELECT * FROM posts WHERE id = ?` answered as both lookup handlers do:
      404 with their own message when no row comes back, else 200 with it. */
  function FindPost(posts: map<PostId, Post>, id: PostId, notFound: string): (r: Response)
    ensures r.status == 404 <==> id !in posts
    ensures id !in posts ==> r == Response(404, Error(notFound))
    ensures id in posts ==> r.status == 200 && r.body.OnePost? && r.body.id == id && r.body.post == posts[id]
  {
    if id in posts then Response(200, OnePost(id, posts[id])) else Response(404, Error(notFound))
  }

  /** The blog service's data: the posts, grants and users tables. */
  class Blog {
    var posts: map<PostId, Post>
    var grants: set<Grant>
    const users: map<string, User>
    /** The table's AUTO_INCREMENT counter: the id the next insert gets. */
    var nextId: nat

    /** Every stored id was handed out before. */
    ghost predicate Valid()
      reads this
    {
      forall id :: id in posts ==> id < nextId
    }

    constructor (users: map<string, User>)
      ensures Valid()
      ensures posts == map[] && grants == {} && this.users == users && nextId == 1
    {
      posts, grants, nextId := map[], {}, 1;
      this.users := users;
    }

    /** POST /api/login (app.js:54-76). */
    method Login(session: Session, username: string, password: string,
                 passwordMatches: (string, string) -> bool, sign: Claims -> string) returns (r: Response)
      modifies session
      ensures username !in users || !passwordMatches(password, users[username].passwordHash) ==>
                r == Response(401, Error("Invalid credentials")) && session.State() == old(session.State())
      ensures username in users && passwordMatches(password, users[username].passwordHash) ==>
                var user := users[username];
                var token := sign(Claims(Num(user.id), username, user.role));
                r == Response(200, LoggedIn("Logged in successfully", token, user.role)) &&
                // token and role are written; the cached userId is left as it was
                session.State() == old(session.State()).(token := Some(token), role := Some(user.role))
    {
      if username in users && passwordMatches(password, users[username].passwordHash) {
        var user := users[username];
        var token := sign(Claims(Num(user.id), username, user.role));
        session.token := Some(token);
        session.role := Some(user.role);
        r := Response(200, LoggedIn("Logged in successfully", token, user.role));
      } else {
        r := Response(401, Error("Invalid credentials"));
      }
    }

    /** The POST /api/blog handler (app.js:97-116). */
    method CreatePost(title: Option<Json>, content: Option<Json>, author: Json, createdAt: int) returns (r: Response)
      requires Valid()
      modifies this
      ensures Valid()
      ensures grants == old(grants)
      ensures !Truthy(content) || !Truthy(title) ==>
                r == Response(400, Error("Title and content are required")) &&
                posts == old(posts) && nextId == old(nextId)
      ensures Truthy(content) && Truthy(title) ==>
                var id := old(nextId);
                // exactly one new post, under an id no stored post had
                r == Response(201, CreatedId(id)) && id !in old(posts) &&
                posts == old(posts)[id := Post(title.value, content.value, author, createdAt)] &&
                // ids are handed out in increasing order
                nextId > id
    {
      if !Truthy(content) || !Truthy(title) {
        return Response(400, Error("Title and content are required"));
      }
      var id := nextId;
      posts := posts[id := Post(title.value, content.value, author, createdAt)];
      nextId := nextId + 1;
      r := Response(201, CreatedId(id));
    }

    /** GET /api/blog (app.js:119-127): every post, with no filtering. */
    method ListPosts() returns (r: Response)
      ensures r.status == 200 && r.body.AllPosts?
      ensures forall id :: id in r.body.posts <==> id in posts
      ensures forall id :: id in posts ==> r.body.posts[id] == posts[id]
    {
      r := Response(200, AllPosts(posts));
    }

    /** GET /api/blog/:blogId (app.js:130-143). */
    method GetPost(blogId: PostId) returns (r: Response)
      ensures r.status == 404 <==> blogId !in posts
      ensures blogId !in posts ==> r.body == Error("Blog post not found")
      ensures blogId in posts ==> r == Response(200, OnePost(blogId, posts[blogId]))
    {
      r := FindPost(posts, blogId, "Blog post not found");
    }

    /** The DELETE /api/blog/:blogId handler (app.js:146-159). */
    method DeletePost(blogId: PostId) returns (r: Response)
      requires Valid()
      modifies this
      ensures Valid()
      ensures grants == old(grants) && nextId == old(nextId)
      ensures blogId !in old(posts) ==> r == Response(404, Error("Blog post not found")) && posts == old(posts)
      ensures blogId in old(posts) ==>
                r == Response(200, Message("Blog post deleted")) &&
                blogId !in posts && posts.Keys == old(posts).Keys - {blogId} &&
                forall id :: id in posts ==> posts[id] == old(posts)[id]
    {
      if blogId !in posts {
        return Response(404, Error("Blog post not found"));
      }
      posts := posts - {blogId};
      r := Response(200, Message("Blog post deleted"));
    }

    /** The PATCH /api/blog/:blogId handler (app.js:162-194): the SET list
        gets a clause for each of content and title that is truthy. */
    method PatchPost(blogId: PostId, content: Option<Json>, title: Option<Json>) returns (r: Response)
      requires Valid()
      modifies this
      ensures Valid()
      ensures grants == old(grants) && nextId == old(nextId)
      ensures !Truthy(content) && !Truthy(title) ==>
                r == Response(400, Error("No fields to update")) && posts == old(posts)
      ensures (Truthy(content) || Truthy(title)) && blogId !in old(posts) ==>
                r == Response(404, Error("Blog post not found")) && posts == old(posts)
      ensures (Truthy(content) || Truthy(title)) && blogId in old(posts) ==>
                var was := old(posts)[blogId];
                r == Response(200, Message("Blog post updated")) &&
                posts.Keys == old(posts).Keys &&
                (forall id :: id in posts && id != blogId ==> posts[id] == old(posts)[id]) &&
                posts[blogId].title == (if Truthy(title) then title.value else was.title) &&
                posts[blogId].content == (if Truthy(content) then content.value else was.content) &&
                posts[blogId].author == was.author && posts[blogId].createdAt == was.createdAt
    {
      if !Truthy(content) && !Truthy(title) {
        return Response(400, Error("No fields to update"));
      }
      var assignments: seq<Assignment> := [];
      if Truthy(content) {
        assignments := assignments + [SetContent(content.value)];
      }
      if Truthy(title) {
        assignments := assignments + [SetTitle(title.value)];
      }
      if blogId !in posts {
        return Response(404, Error("Blog post not found"));
      }
      var was := posts[blogId];
      if Truthy(content) && Truthy(title) {
        ApplyAllPush(was, [SetContent(content.value)], SetTitle(title.value));
      }
      posts := posts[blogId := ApplyAll(was, assignments)];
      r := Response(200, Message("Blog post updated"));
    }

    /** The POST /api/posts/:postId/permissions handler (app.js:199-209). */
    method GrantPermission(postId: PostId, userId: Json) returns (r: Response)
      requires Valid()
      modifies this
      ensures Valid()
      ensures posts == old(posts) && nextId == old(nextId)
      ensures grants == old(grants) + {(postId, userId)}
      ensures r == Response(200, Message("Permission added"))
    {
      grants := grants + {(postId, userId)};
      r := Response(200, Message("Permission added"));
    }

    /** The DELETE /api/posts/:postId/permissions/:userId handler
        (app.js:212-221): succeeds whether or not the pair was granted. */
    method RevokePermission(postId: PostId, userId: Json) returns (r: Response)
      requires Valid()
      modifies this
      ensures Valid()
      ensures posts == old(posts) && nextId == old(nextId)
      ensures grants == old(grants) - {(postId, userId)}
      ensures r == Response(200, Message("Permission removed"))
    {
      grants := grants - {(postId, userId)};
      r := Response(200, Message("Permission removed"));
    }

    /** The GET /api/posts/:postId handler (app.js:224-234). */
    method FetchPost(postId: PostId) returns (r: Response)
      ensures r.status == 404 <==> postId !in posts
      ensures postId !in posts ==> r.body == Error("Post not found")
      ensures postId in posts ==> r == Response(200, OnePost(postId, posts[postId]))
    {
      r := FindPost(posts, postId, "Post not found");
    }

    /** GET /api/posts/:postId/permissions (app.js:248-255): unguarded. */
    method ListPermissions(postId: PostId) returns (r: Response)
      ensures r.status == 200 && r.body.UserIds?
      ensures forall u :: u in r.body.ids <==> (postId, u) in grants
    {
      r := Response(200, UserIds(UsersGranted(grants, postId)));
    }

    /** POST /api/blog as routed: verifyToken, then the handler. */
    method CreateBlogRoute(session: Session, authorization: Option<string>, verify: string -> Option<Claims>,
                           title: Option<Json>, content: Option<Json>, author: Json, createdAt: int) returns (r: Response)
      requires Valid()
      modifies this, session
      ensures Valid()
      ensures var (s', gate) := Authenticate(old(session.State()), authorization, verify);
              session.State() == s' &&
              (gate.Halt? ==> r == gate.resp && posts == old(posts) && nextId == old(nextId)) &&
              // an authenticated caller with a falsy field is refused and nothing is stored
              (gate.Next? && !(Truthy(title) && Truthy(content)) ==>
                 r == Response(400, Error("Title and content are required")) &&
                 posts == old(posts) && nextId == old(nextId)) &&
              // any authenticated caller may create, under any author name
              (gate.Next? && Truthy(title) && Truthy(content) ==>
                 r == Response(201, CreatedId(old(nextId))) && old(nextId) !in old(posts) &&
                 posts == old(posts)[old(nextId) := Post(title.value, content.value, author, createdAt)] &&
                 nextId > old(nextId))
      ensures posts != old(posts) ==> Authenticate(old(session.State()), authorization, verify).1.Next?
      ensures nextId >= old(nextId)
      ensures grants == old(grants)
    {
      var gate := session.VerifyToken(authorization, verify);
      if gate.Halt? {
        return gate.resp;
      }
      r := CreatePost(title, content, author, createdAt);
    }

    /** DELETE /api/blog/:blogId as routed: verifyToken, checkOwnershipOrAdmin,
        then the handler. */
    method DeleteBlogRoute(session: Session, authorization: Option<string>, verify: string -> Option<Claims>,
                           blogId: PostId) returns (r: Response)
      requires Valid()
      modifies this, session
      ensures Valid()
      ensures grants == old(grants)
      ensures var (s', gate) := Authenticate(old(session.State()), authorization, verify);
              session.State() == s' &&
              (gate.Halt? ==> r == gate.resp) &&
              // only an admin or the post's author gets the post deleted
              (r.status == 200 <==> gate.Next? && blogId in old(posts) &&
                                    (IsAdmin(gate.user) || old(posts)[blogId].author == gate.user.userId)) &&
              // everyone else is refused with 403, even for a post that does not exist
              (gate.Next? && !IsAdmin(gate.user) && !Owns(old(posts), blogId, gate.user.userId) ==> r == PermissionDenied) &&
              // so only an admin can learn that a post is missing
              (r.status == 404 <==> gate.Next? && IsAdmin(gate.user) && blogId !in old(posts))
      ensures r.status == 200 ==> r == Response(200, Message("Blog post deleted")) && posts == old(posts) - {blogId}
      ensures r.status == 404 ==> r == Response(404, Error("Blog post not found"))
      ensures r.status != 200 ==> posts == old(posts)
      // a deleted post's id is never handed out again
      ensures nextId == old(nextId)
    {
      var gate := session.VerifyToken(authorization, verify);
      if gate.Halt? {
        return gate.resp;
      }
      var verdict := CheckOwnershipOrAdmin(gate.user, blogId, posts);
      if verdict.Deny? {
        return verdict.resp;
      }
      r := DeletePost(blogId);
    }

    /** PATCH /api/blog/:blogId as routed: verifyToken, checkOwnershipOrAdmin,
        then the handler. */
    method PatchBlogRoute(session: Session, authorization: Option<string>, verify: string -> Option<Claims>,
                          blogId: PostId, content: Option<Json>, title: Option<Json>) returns (r: Response)
      requires Valid()
      modifies this, session
      ensures Valid()
      ensures grants == old(grants)
      ensures var (s', gate) := Authenticate(old(session.State()), authorization, verify);
              session.State() == s' &&
              (gate.Halt? ==> r == gate.resp) &&
              // only an admin or the post's author changes a post
              (posts != old(posts) ==> gate.Next? && blogId in old(posts) &&
                                       (IsAdmin(gate.user) || old(posts)[blogId].author == gate.user.userId)) &&
              (gate.Next? && !IsAdmin(gate.user) && !Owns(old(posts), blogId, gate.user.userId) ==> r == PermissionDenied) &&
              (r.status == 200 <==> gate.Next? && blogId in old(posts) && (Truthy(content) || Truthy(title)) &&
                                    (IsAdmin(gate.user) || old(posts)[blogId].author == gate.user.userId))
      ensures r.status != 200 ==> posts == old(posts)
      ensures posts.Keys == old(posts).Keys
      ensures nextId == old(nextId)
      // every post but the patched one is left as it was
      ensures forall id :: id in posts && id != blogId ==> posts[id] == old(posts)[id]
      // an authorized caller gets the handler's 400 and 404
      ensures var gate := Authenticate(old(session.State()), authorization, verify).1;
              gate.Next? && (IsAdmin(gate.user) || Owns(old(posts), blogId, gate.user.userId)) ==>
                (!Truthy(content) && !Truthy(title) ==> r == Response(400, Error("No fields to update"))) &&
                ((Truthy(content) || Truthy(title)) && blogId !in old(posts) ==>
                   r == Response(404, Error("Blog post not found")))
      // on success only the truthy fields of the post are overwritten
      ensures r.status == 200 ==>
                var was := old(posts)[blogId];
                r == Response(200, Message("Blog post updated")) &&
                posts[blogId].title == (if Truthy(title) then title.value else was.title) &&
                posts[blogId].content == (if Truthy(content) then content.value else was.content) &&
                posts[blogId].author == was.author && posts[blogId].createdAt == was.createdAt
    {
      var gate := session.VerifyToken(authorization, verify);
      if gate.Halt? {
        return gate.resp;
      }
      var verdict := CheckOwnershipOrAdmin(gate.user, blogId, posts);
      if verdict.Deny? {
        return verdict.resp;
      }
      r := PatchPost(blogId, content, title);
    }

    /** POST /api/posts/:postId/permissions as routed: verifyToken,
        checkViewPermission, then the handler. */
    method GrantRoute(session: Session, authorization: Option<string>, verify: string -> Option<Claims>,
                      postId: PostId, userId: Json) returns (r: Response)
      requires Valid()
      modifies this, session
      ensures Valid()
      ensures posts == old(posts) && nextId == old(nextId)
      ensures var (s', gate) := Authenticate(old(session.State()), authorization, verify);
              session.State() == s' &&
              (gate.Halt? ==> r == gate.resp) &&
              // only an admin or the post's author can grant; holding a grant is not enough
              (r.status == 200 <==> gate.Next? && (IsAdmin(gate.user) || Owns(old(posts), postId, gate.user.userId))) &&
              (gate.Next? && !IsAdmin(gate.user) && !Owns(old(posts), postId, gate.user.userId) ==> r == PermissionDenied) &&
              (r.status == 200 ==> r == Response(200, Message("Permission added"))) &&
              (r.status == 200 ==> grants == old(grants) + {(postId, userId)}) &&
              (r.status != 200 ==> grants == old(grants))
    {
      var gate := session.VerifyToken(authorization, verify);
      if gate.Halt? {
        return gate.resp;
      }
      var verdict := CheckViewPermission(gate.user, postId, posts);
      if verdict.Deny? {
        return verdict.resp;
      }
      r := GrantPermission(postId, userId);
    }

    /** DELETE /api/posts/:postId/permissions/:userId as routed: verifyToken,
        checkViewPermission, then the handler. */
    method RevokeRoute(session: Session, authorization: Option<string>, verify: string -> Option<Claims>,
                       postId: PostId, userId: Json) returns (r: Response)
      requires Valid()
      modifies this, session
      ensures Valid()
      ensures posts == old(posts) && nextId == old(nextId)
      ensures var (s', gate) := Authenticate(old(session.State()), authorization, verify);
              session.State() == s' &&
              (gate.Halt? ==> r == gate.resp) &&
              (r.status == 200 <==> gate.Next? && (IsAdmin(gate.user) || Owns(old(posts), postId, gate.user.userId))) &&
              (gate.Next? && !IsAdmin(gate.user) && !Owns(old(posts), postId, gate.user.userId) ==> r == PermissionDenied) &&
              (r.status == 200 ==> r == Response(200, Message("Permission removed"))) &&
              (r.status == 200 ==> grants == old(grants) - {(postId, userId)}) &&
              (r.status != 200 ==> grants == old(grants))
    {
      var gate := session.VerifyToken(authorization, verify);
      if gate.Halt? {
        return gate.resp;
      }
      var verdict := CheckViewPermission(gate.user, postId, posts);
      if verdict.Deny? {
        return verdict.resp;
      }
      r := RevokePermission(postId, userId);
    }

    /** GET /api/posts/:postId as routed: verifyToken, checkViewPermission,
        then the handler. */
    method FetchPostRoute(session: Session, authorization: Option<string>, verify: string -> Option<Claims>,
                          postId: PostId) returns (r: Response)
      modifies session
      ensures var (s', gate) := Authenticate(old(session.State()), authorization, verify);
              session.State() == s' &&
              (gate.Halt? ==> r == gate.resp) &&
              // a non-admin sees only a post they are the author of: a grant
              // for them does not help, and a missing post reads as forbidden
              (gate.Next? && !IsAdmin(gate.user) ==>
                 r == if Owns(posts, postId, gate.user.userId)
                      then Response(200, OnePost(postId, posts[postId]))
                      else PermissionDenied) &&
              // an admin sees any post, and is told when it does not exist
              (gate.Next? && IsAdmin(gate.user) ==>
                 r == if postId in posts then Response(200, OnePost(postId, posts[postId]))
                      else Response(404, Error("Post not found")))
    {
      var gate := session.VerifyToken(authorization, verify);
      if gate.Halt? {
        return gate.resp;
      }
      var verdict := CheckViewPermission(gate.user, postId, posts);
      if verdict.Deny? {
        return verdict.resp;
      }
      r := FetchPost(postId);
    }
  }

  /** Two creates through the route, with a delete in between, never hand out
      the same id: deleting a post does not give its id back. */
  method CreateDeleteCreate(blog: Blog, session: Session, authorization: Option<string>, verify: string -> Option<Claims>,
                            title: Option<Json>, content: Option<Json>, author: Json, createdAt: int)
    returns (first: Response, second: Response)
    requires blog.Valid()
    modifies blog, session
    ensures blog.Valid()
    ensures first.status == 201 && second.status == 201 ==>
              first.body.CreatedId? && second.body.CreatedId? && first.body.id < second.body.id
  {
    first := blog.CreateBlogRoute(session, authorization, verify, title, content, author, createdAt);
    if first.status == 201 {
      var _ := blog.DeleteBlogRoute(session, authorization, verify, first.body.id);
    }
    second := blog.CreateBlogRoute(session, authorization, verify, title, content, author, createdAt);
  }
}
