/**
 * The entities of the blog's post module: the requesting user, a post and
 * the fields a post form submits, together with the two permission gates and
 * the visibility rule that the views apply to them.
 *
 * Dates are day numbers; the current date is always passed in as `today`.
 */
module Posts {

  datatype Option<T> = None | Some(value: T)

  /** The requesting user as the views see it: identity, names and the two flags. */
  datatype User = User(id: int, firstName: string, lastName: string, isStaff: bool, isSuperuser: bool)

  /** The author row a post refers to (the user's id and the names that search looks at). */
  datatype Author = Author(id: int, firstName: string, lastName: string)

  /** The fields a valid post form hands over to be saved. */
  datatype Fields = Fields(title: string, content: string, image: string, publish: int, draft: bool)

  /** A persisted post. */
  datatype Post = Post(id: int, author: Author, title: string, content: string, image: string,
                       publish: int, draft: bool)

  function AuthorOf(u: User): (a: Author)
    ensures a.id == u.id && a.firstName == u.firstName && a.lastName == u.lastName
  {
    Author(u.id, u.firstName, u.lastName)
  }

  /** The post saved from `f` under key `id`, written by `author`. */
  function Saved(id: int, author: Author, f: Fields): (p: Post)
    ensures p.id == id && p.author == author && FieldsOf(p) == f
  {
    Post(id, author, f.title, f.content, f.image, f.publish, f.draft)
  }

  /** The form-editable part of a post. */
  function FieldsOf(p: Post): Fields
  {
    Fields(p.title, p.content, p.image, p.publish, p.draft)
  }

  /**
   * Gate of create, update, delete and of the hidden detail page: the user
   * must carry BOTH flags (the source tests `not is_staff or not is_superuser`
   * to refuse).
   */
  predicate CanMutate(u: User)
    ensures CanMutate(u) <==> u.isStaff && u.isSuperuser
  {
    !(!u.isStaff || !u.isSuperuser)
  }

  /** Gate of the listing: EITHER flag gives the whole collection. */
  predicate SeesAll(u: User)
    ensures CanMutate(u) ==> SeesAll(u)
    ensures !u.isStaff && !u.isSuperuser <==> !SeesAll(u)
  {
    u.isStaff || u.isSuperuser
  }

  /** A draft, or a post dated after today, is hidden from ordinary users. */
  predicate IsHidden(p: Post, today: int)
    ensures p.publish == today ==> (IsHidden(p, today) <==> p.draft)
    ensures p.publish > today ==> IsHidden(p, today)
  {
    p.publish > today || p.draft
  }

  /**
   * The manager filter `Post.objects.active()`. Its definition lives in the
   * model file, which is not part of this model; it is ASSUMED here to keep
   * exactly the posts that are not draft and dated today or earlier.
   */
  predicate IsActive(p: Post, today: int)
    ensures IsActive(p, today) <==> !IsHidden(p, today)
  {
    !p.draft && p.publish <= today
  }

  /** A user with exactly one flag gets the whole listing but may not mutate. */
  lemma OneFlagListsButCannotMutate(u: User)
    requires u.isStaff != u.isSuperuser
    ensures SeesAll(u) && !CanMutate(u)
  {
  }
}
