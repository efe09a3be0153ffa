/**
 * The five post views: the detail page with its visibility rule, the listing
 * pipeline (base set, then search, then page), and create, update and delete
 * on the post store, each behind the staff-and-superuser gate.
 */
module Views {
  import opened Posts
  import opened Seqs
  import opened Search
  import opened Pagination

  /** What a view answers with. */
  datatype Response =
    | NotFound                      // Http404, also used to refuse a request
    | PostPage(post: Post)          // the detail template for one post
    | FormPage                      // the post form, shown again
    | RedirectToPost(id: int)       // redirect to the post's own address
    | RedirectToList                // redirect to the listing

  /**
   * The detail view: an unknown id is not found; a hidden post (draft or
   * dated after today) is not found unless the user carries both flags;
   * any other post is shown.
   */
  function Detail(posts: map<int, Post>, id: int, user: User, today: int): (r: Response)
    ensures r == NotFound || (id in posts && r == PostPage(posts[id]))
    ensures r.PostPage? <==> id in posts && (!IsHidden(posts[id], today) || CanMutate(user))
  {
    if id !in posts then NotFound
    else if IsHidden(posts[id], today) && !CanMutate(user) then NotFound
    else PostPage(posts[id])
  }

  /** A post that is neither draft nor future-dated is shown to every user, also on its publish day. */
  lemma VisiblePostShownToAll(posts: map<int, Post>, id: int, user: User, today: int)
    requires id in posts && !posts[id].draft && posts[id].publish <= today
    ensures Detail(posts, id, user, today) == PostPage(posts[id])
  {
  }

  /** A draft or future post is shown exactly to users holding both flags. */
  lemma HiddenPostShownOnlyToBothFlags(posts: map<int, Post>, id: int, user: User, today: int)
    requires id in posts && (posts[id].draft || posts[id].publish > today)
    ensures Detail(posts, id, user, today) == PostPage(posts[id]) <==> user.isStaff && user.isSuperuser
    ensures !(user.isStaff && user.isSuperuser) ==> Detail(posts, id, user, today) == NotFound
  {
  }

  /**
   * The listing's base set: the whole collection for a user with either
   * flag, otherwise the active posts, in collection order.
   */
  function ListBase(all: seq<Post>, user: User, today: int): (r: seq<Post>)
    ensures SeesAll(user) ==> r == all
    ensures forall p :: p in r <==> p in all && (SeesAll(user) || IsActive(p, today))
    ensures IsSubsequence(r, all)
    ensures NoDuplicates(all) ==> NoDuplicates(r)
  {
    if SeesAll(user) then
      SubsequenceReflexive(all);
      all
    else
      ActiveFacts(all, today);
      Filter(all, p => IsActive(p, today))
  }

  lemma ActiveFacts(all: seq<Post>, today: int)
    ensures forall p :: p in Filter(all, p => IsActive(p, today)) <==> p in all && IsActive(p, today)
    ensures IsSubsequence(Filter(all, p => IsActive(p, today)), all)
    ensures NoDuplicates(all) ==> NoDuplicates(Filter(all, p => IsActive(p, today)))
  {
    var keep := p => IsActive(p, today);
    forall p ensures p in Filter(all, keep) <==> p in all && keep(p) {
      FilterMembership(all, keep, p);
    }
    FilterIsSubsequence(all, keep);
    if NoDuplicates(all) {
      FilterNoDuplicates(all, keep);
    }
  }

  /** The listed collection before paging: base set, then search. */
  function Listed(all: seq<Post>, user: User, today: int, query: Option<string>): (r: seq<Post>)
    ensures forall p :: p in r <==>
              && p in all
              && (SeesAll(user) || IsActive(p, today))
              && (!Filters(query) || Matches(p, query.value))
    ensures IsSubsequence(r, all)
    ensures NoDuplicates(all) ==> NoDuplicates(r)
  {
    var base := ListBase(all, user, today);
    SubsequenceTransitive(SearchPosts(base, query), base, all);
    SearchPosts(base, query)
  }

  /**
   * The list view: the page of the searched base set the page token selects.
   * It never fails, holds at most six posts, and every post on it is in the
   * collection, matches the query and, for a user without either flag, is
   * active.
   */
  function PostList(all: seq<Post>, user: User, today: int, query: Option<string>,
                    token: PageToken): (pg: Page<Post>)
    ensures 1 <= pg.number <= pg.numPages == NumPages(|Listed(all, user, today, query)|)
    ensures pg.number == ResolvePage(|Listed(all, user, today, query)|, token)
    ensures pg.items == PageItems(Listed(all, user, today, query), pg.number)
    ensures |pg.items| <= PerPage
    ensures NoDuplicates(all) ==> NoDuplicates(pg.items)
    ensures forall p :: p in pg.items ==>
              && p in all
              && (!Filters(query) || Matches(p, query.value))
              && (SeesAll(user) || IsActive(p, today))
  {
    var listed := Listed(all, user, today, query);
    var pg := Paginate(listed, token);
    forall p | p in pg.items ensures p in listed {
      PageItemsFromCollection(listed, pg.number, p);
    }
    PageItemsNoDuplicates(listed, pg.number);
    pg
  }

  /** A user with neither flag never sees a draft or future post, for any query or page. */
  lemma UnprivilegedListingShowsNoHidden(all: seq<Post>, user: User, today: int,
                                         query: Option<string>, token: PageToken)
    requires !user.isStaff && !user.isSuperuser
    ensures forall p :: p in PostList(all, user, today, query, token).items ==>
              !p.draft && p.publish <= today
  {
  }

  /** Concatenating every page of a listing gives the searched base set, in order. */
  lemma ListingPagesCoverListed(all: seq<Post>, user: User, today: int, query: Option<string>)
    ensures var listed := Listed(all, user, today, query);
            PagesUpTo(listed, NumPages(|listed|)) == listed
  {
    AllPagesReproduceCollection(Listed(all, user, today, query));
  }

  /** For a user without either flag, every listed post also opens on its detail page. */
  lemma UnprivilegedListedPostOpens(all: seq<Post>, posts: map<int, Post>, user: User, today: int,
                                    query: Option<string>, token: PageToken)
    requires forall p :: p in all ==> p.id in posts && posts[p.id] == p
    requires !SeesAll(user)
    ensures forall p :: p in PostList(all, user, today, query, token).items ==>
              Detail(posts, p.id, user, today) == PostPage(p)
  {
  }

  /**
   * The gates differ: a staff member without the superuser flag finds a
   * draft on the first list page, yet its detail page is not found.
   */
  lemma StaffOnlyListsDraftButCannotOpenIt(today: int)
    ensures var user := User(7, "Ada", "Byron", true, false);
            var p := Post(1, Author(2, "Tim", "Lee"), "t", "c", "i", today, true);
            && PostList([p], user, today, None, Absent).items == [p]
            && Detail(map[1 := p], 1, user, today) == NotFound
  {
    var user := User(7, "Ada", "Byron", true, false);
    var p := Post(1, Author(2, "Tim", "Lee"), "t", "c", "i", today, true);
    assert ListBase([p], user, today) == [p];
    assert Listed([p], user, today, None) == [p];
    assert NumPages(1) == 1 && ResolvePage(1, Absent) == 1;
    assert PageItems([p], 1) == [p];
    assert Paginate([p], Absent).items == [p];
  }

  /** The post saved by a create is shown to its creator under the new id, author bound to them. */
  lemma CreatedPostOpensForCreator(posts: map<int, Post>, id: int, user: User, f: Fields, today: int)
    requires CanMutate(user)
    ensures var p := Saved(id, AuthorOf(user), f);
            && Detail(posts[id := p], id, user, today) == PostPage(p)
            && FieldsOf(p) == f && p.author.id == user.id
  {
  }

  /** After a delete the id is not found for anyone. */
  lemma DeletedPostNotFound(posts: map<int, Post>, id: int, user: User, today: int)
    ensures Detail(posts - {id}, id, user, today) == NotFound
  {
  }

  /**
   * The persisted posts by id, and the next id the database will hand out.
   * Ids are never reused: every stored id lies below `nextId`, which only grows.
   */
  class PostStore {
    var posts: map<int, Post>
    var nextId: int

    ghost predicate Valid()
      reads this
    {
      && nextId >= 1
      && forall id :: id in posts ==> 1 <= id < nextId && posts[id].id == id
    }

    constructor ()
      ensures Valid() && posts == map[] && nextId == 1
    {
      posts := map[];
      nextId := 1;
    }

    /**
     * The create view: refused with not-found unless the user has both flags;
     * an invalid form is shown again; a valid one is saved under a fresh id
     * with the requesting user as author.
     */
    method Create(user: User, form: Option<Fields>) returns (r: Response)
      requires Valid()
      modifies this
      ensures Valid()
      ensures !CanMutate(user) ==> r == NotFound && posts == old(posts) && nextId == old(nextId)
      ensures CanMutate(user) && form.None? ==>
                r == FormPage && posts == old(posts) && nextId == old(nextId)
      ensures CanMutate(user) && form.Some? ==>
                && old(nextId) !in old(posts)
                && r == RedirectToPost(old(nextId))
                && posts == old(posts)[old(nextId) := Saved(old(nextId), AuthorOf(user), form.value)]
                && nextId == old(nextId) + 1
    {
      if !user.isStaff || !user.isSuperuser {
        return NotFound;
      }
      if form.None? {
        return FormPage;
      }
      var id := nextId;
      posts := posts[id := Saved(id, AuthorOf(user), form.value)];
      nextId := nextId + 1;
      r := RedirectToPost(id);
    }

    /**
     * The update view: refused with not-found unless the user has both flags;
     * an unknown id is not found; an invalid form is shown again; a valid one
     * replaces the post's fields and keeps its id and author.
     */
    method Update(user: User, id: int, form: Option<Fields>) returns (r: Response)
      requires Valid()
      modifies this
      ensures Valid() && nextId == old(nextId)
      ensures !CanMutate(user) ==> r == NotFound && posts == old(posts)
      ensures CanMutate(user) && id !in old(posts) ==> r == NotFound && posts == old(posts)
      ensures CanMutate(user) && id in old(posts) && form.None? ==>
                r == FormPage && posts == old(posts)
      ensures CanMutate(user) && id in old(posts) && form.Some? ==>
                && r == RedirectToPost(id)
                && posts == old(posts)[id := Saved(id, old(posts)[id].author, form.value)]
    {
      if !user.isStaff || !user.isSuperuser {
        return NotFound;
      }
      if id !in posts {
        return NotFound;
      }
      if form.None? {
        return FormPage;
      }
      posts := posts[id := Saved(id, posts[id].author, form.value)];
      r := RedirectToPost(id);
    }

    /**
     * The delete view: refused with not-found unless the user has both flags;
     * an unknown id is not found; otherwise exactly that post is removed.
     */
    method Delete(user: User, id: int) returns (r: Response)
      requires Valid()
      modifies this
      ensures Valid() && nextId == old(nextId)
      ensures !CanMutate(user) ==> r == NotFound && posts == old(posts)
      ensures CanMutate(user) && id !in old(posts) ==> r == NotFound && posts == old(posts)
      ensures CanMutate(user) && id in old(posts) ==>
                && r == RedirectToList
                && posts.Keys == old(posts).Keys - {id}
                && forall k :: k in posts ==> posts[k] == old(posts)[k]
    {
      if !user.isStaff || !user.isSuperuser {
        return NotFound;
      }
      if id !in posts {
        return NotFound;
      }
      posts := posts - {id};
      r := RedirectToList;
    }
  }
}
