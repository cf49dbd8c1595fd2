/**
 * The abstract data the blog service works on, in place of its MySQL tables:
 * posts keyed by id, (post, user) view grants and user accounts, and the
 * HTTP responses the handlers send.
 */
module Store {
  import opened Values

  /** Posts are keyed by their auto-increment id. */
  type PostId = nat

  /** A row of the `posts` table. `author` is whatever the creating client
      sent; nothing ties it to a user account. */
  datatype Post = Post(title: Json, content: Json, author: Json, createdAt: int)

  /** A row of the `users` table; the username is the key it is stored under. */
  datatype User = User(id: nat, passwordHash: string, role: string)

  /** A row of the `post_permissions` table. */
  type Grant = (PostId, Json)

  /** The JSON payload of a response. */
  datatype Body =
    | Error(error: string)
    | Message(message: string)
    | LoggedIn(message: string, token: string, role: string)
    | CreatedId(id: PostId)
    | OnePost(id: PostId, post: Post)
    | AllPosts(posts: map<PostId, Post>)
    | UserIds(ids: set<Json>)

  datatype Response = Response(status: nat, body: Body)

  /** What `SELECT * FROM posts WHERE id = ? AND author = ?` finds a row for. */
  predicate Owns(posts: map<PostId, Post>, postId: PostId, userId: Json)
  {
    postId in posts && posts[postId].author == userId
  }

  const AccessDenied := Response(401, Error("Access denied"))
  const InvalidToken := Response(403, Error("Invalid token"))
  const PermissionDenied := Response(403, Error("Permission denied"))
}
