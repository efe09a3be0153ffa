# Blog post views: access, visibility, search and paging

A Dafny model of the post views of a Django 1.9 blog (`src/posts/views.py`).
The model covers five things:

- the permission gates of create, update and delete, which need a user who is
  both staff and superuser;
- the detail page's rule that hides drafts and future-dated posts;
- the listing pipeline: the base set, then the five-field case-insensitive
  search, then pages of six with a fallback for bad page numbers;
- the post store as a class whose methods create, update and delete posts;
- proofs about all of the above.

Dates are day numbers. The current date is the `today` parameter. The
requesting user is a value with its two flags.

Modules:

- `Posts` (`posts.dfy`): the entities (`User`, `Author`, `Fields`, `Post`).
  It also holds the two gates. `CanMutate` needs both flags. `SeesAll` needs
  either flag. It holds the hidden rule `IsHidden` and the assumed
  `IsActive` as well.
- `Seqs` (`seqs.dfy`): an order-keeping filter over sequences, with its
  membership, count, order and no-duplicates facts.
- `Search` (`search.dfy`): ASCII case folding, substring containment, the
  five-field `Matches`, and `SearchPosts`.
- `Pagination` (`pagination.dfy`): `NumPages`, the page-token fallback
  `ResolvePage`, the page slice `PageItems`, and the lemmas that the pages
  cover the collection.
- `Views` (`views.dfy`): `Detail`, the listing (`ListBase`, `PostList`),
  and the class `PostStore` with `Create`, `Update` and `Delete`.

The two gates differ, and the model keeps both exactly as written. Mutation and the hidden detail page test
`not is_staff or not is_superuser`, so they need both flags. The listing
tests `is_staff or is_superuser`, so either flag gives the whole collection.
`StaffOnlyListsDraftButCannotOpenIt` shows the result: a staff-only user sees
a draft in the list, but its detail page is not found.

Lines 30-32 show a hidden post only to a user with both flags. Line 43 calls
`Post.objects.active()`, whose filter `IsActive` assumes (see "## Left out").

## Model

| member | source | states |
|---|---|---|
| Posts.CanMutate | src/posts/views.py:14 | The mutation gate lets a user through exactly when the user is both staff and superuser |
| Posts.SeesAll | src/posts/views.py:44 | The listing gate is refused exactly to a user with neither flag, and admits everyone the mutation gate admits |
| Posts.IsHidden | src/posts/views.py:30 | A post dated after today is hidden; on its publish day it is hidden exactly when it is a draft |
| Posts.IsActive | src/posts/views.py:43 | ASSUMED definition of the `active()` manager filter, which lives outside the modelled file: a post is active exactly when the detail view would not hide it (not a draft and dated today or earlier) |
| Posts.OneFlagListsButCannotMutate | src/posts/views.py:44 | A user with exactly one flag gets the whole listing but may not create, update or delete |
| Seqs.Filter | src/posts/views.py:49-55 | The narrowed queryset is no longer than the original and holds only posts that were there and pass the filter |
| Seqs.FilterMembership | src/posts/views.py:49-55 | A post is in the narrowed queryset iff it is in the original and passes the filter |
| Seqs.FilterCount | src/posts/views.py:55 | A post occurs in the result as many times as in the original if it passes, else never; several matching fields never repeat it |
| Seqs.FilterIsSubsequence | src/posts/views.py:49-55 | Filtering keeps the queryset's order |
| Seqs.FilterNoDuplicates | src/posts/views.py:55 | The filtered result of a duplicate-free queryset is duplicate-free |
| Search.FoldIdempotent | src/posts/views.py:50 | Folding case twice is the same as folding once |
| Search.ContainsIffOccurs | src/posts/views.py:50-54 | The position-by-position `Contains` holds exactly when the query occurs as a slice of the field |
| Search.IContains | src/posts/views.py:50-54 | A field `icontains` the query exactly when the case-folded query occurs as a contiguous slice of the case-folded field |
| Search.IContainsIgnoresCase | src/posts/views.py:50-54 | `icontains` gives the same answer for any capitalisation of the query or of the field |
| Search.EmptyQueryIsEverywhere | src/posts/views.py:47-48 | Every field contains the empty query, so skipping the filter for an empty query agrees with it |
| Search.Matches | src/posts/views.py:49-54 | A post matches iff one of its five searched fields (title, content, author first name, author last name, image) contains the query ignoring case; every post matches the empty query |
| Search.Filters | src/posts/views.py:47-48 | The query narrows the listing exactly when it is present and not the empty string |
| Search.SearchPosts | src/posts/views.py:47-55 | An absent or empty query returns the base unchanged; otherwise a post is in the result iff it is in the base and one of its five fields contains the query ignoring case; the result keeps base order and adds no duplicates |
| Search.SearchCount | src/posts/views.py:49-55 | Each post's count in the search result is its count in the base if it matches, else zero |
| Search.LastNameMatchListedOnce | src/posts/views.py:53-55 | A post matched only through its author's last name and present once in the base is in the result exactly once |
| Pagination.NumPages | src/posts/views.py:56 | The page count is the least positive number of six-item pages that holds every item, so an empty collection has one page |
| Pagination.ResolvePage | src/posts/views.py:58-64 | Page resolution never fails: absent or non-integer gives 1, an in-range integer gives itself, any other integer gives the last page; the result is always in 1..num_pages |
| Pagination.PageItems | src/posts/views.py:60 | Page n holds the items from (n-1)*6 up to min(n*6, count), at most six of them, exactly six before the last page, and at least one when there are items |
| Pagination.Paginate | src/posts/views.py:56-64 | The shown page carries the resolved number, the page count and exactly that page's items |
| Pagination.PageItemsFromCollection | src/posts/views.py:60 | Every item on a page belongs to the paginated collection |
| Pagination.PageItemsNoDuplicates | src/posts/views.py:60 | A page of a duplicate-free collection holds no post twice |
| Pagination.PagesUpToIsPrefix | src/posts/views.py:56-60 | The first k pages laid end to end are the first min(6k, count) items |
| Pagination.AllPagesReproduceCollection | src/posts/views.py:56-60 | Pages 1..num_pages laid end to end reproduce the collection exactly |
| Pagination.ItemOnItsPage | src/posts/views.py:56-60 | Item i is on page i/6+1 at position i mod 6, and that page exists |
| Pagination.NonIntegerActsAsAbsent | src/posts/views.py:58-62 | A non-integer page token shows the same page as no token, which is page 1 |
| Pagination.ThirteenItemsFarPage | src/posts/views.py:63-64 | With 13 items, page 9999 falls back to page 3, which holds the last item only |
| Pagination.SevenItemsExample | src/posts/views.py:56-64 | With 7 items, page 1 holds six items, page 2 holds the seventh, and page 3 falls back to page 2 |
| Views.Detail | src/posts/views.py:28-32 | An unknown id is not found; a known post is shown iff it is neither draft nor future-dated or the user has both flags; otherwise not found |
| Views.VisiblePostShownToAll | src/posts/views.py:30 | A post that is not a draft and is dated today or earlier is shown to every user, including on its publish day |
| Views.HiddenPostShownOnlyToBothFlags | src/posts/views.py:30-32 | A draft or future post is shown iff the user is both staff and superuser, and is not found for everyone else |
| Views.ListBase | src/posts/views.py:42-45 | A user with either flag gets the whole collection; any other user gets exactly the active posts; order kept, no duplicates added |
| Views.Listed | src/posts/views.py:43-55 | The searched base set holds exactly the posts of the collection that the user's gate admits and that match the query, in collection order, without duplicates when the collection has none |
| Views.PostList | src/posts/views.py:41-64 | The list view shows the page the token resolves to (page 1 for a missing or non-integer token, the last page for an out-of-range integer) and exactly that page's slice of the searched base set: at most six posts, each in the collection, matching the query, active unless the user has a flag, none twice when the collection has no duplicates |
| Views.UnprivilegedListingShowsNoHidden | src/posts/views.py:43-45 | For a user with neither flag, the listing shows no draft and no future post, for any query and any page token |
| Views.ListingPagesCoverListed | src/posts/views.py:56-60 | All pages of a listing laid end to end give the searched base set in order |
| Views.UnprivilegedListedPostOpens | src/posts/views.py:30-45 | For a user with neither flag, every post the listing shows also opens on its detail page |
| Views.StaffOnlyListsDraftButCannotOpenIt | src/posts/views.py:30-45 | A staff user who is not a superuser sees a draft on the list page yet gets not-found on its detail page |
| Views.CreatedPostOpensForCreator | src/posts/views.py:18-22 | The post a create saves opens for its creator under the new id, with the submitted fields and the creator as author |
| Views.DeletedPostNotFound | src/posts/views.py:95-96 | After a delete, the id's detail page is not found for every user |
| Views.PostStore.Create | src/posts/views.py:13-26 | Refused (not-found, store unchanged) without both flags; an invalid form is shown again with the store unchanged; a valid form is saved under a never-used id with the requesting user as author |
| Views.PostStore.Update | src/posts/views.py:74-89 | Refused (not-found, store unchanged) without both flags or for an unknown id; an invalid form is shown again with the store unchanged; a valid form replaces the fields and keeps the id and author |
| Views.PostStore.Delete | src/posts/views.py:92-98 | Refused (not-found, store unchanged) without both flags or for an unknown id; otherwise exactly that key is removed and every other post is unchanged |

## Left out

- `Post.objects.active()` is defined in the model file, which is not part of this model. `IsActive` assumes it keeps exactly the non-draft posts dated today or earlier.
- Reading the page token as an integer is done by Python's `int()` inside the paginator. The model takes the outcome as a `PageToken` (absent, not an integer, or an integer). Which strings count as integers is not modelled.
- Paginator internals are taken as Django's defaults: no orphans, and an empty first page allowed. `ResolvePage` leaves out the paginator's special case that accepts page 1 past the end, because the page count is never below one.
- `icontains` case folding is modelled for ASCII letters only. Database collation and Unicode folding are not modelled.
- Form handling (`PostForm`, `is_valid`, file uploads) is a form class that is not part of this model. A submitted form is `Some(fields)` when valid and `None` otherwise. The fields are title, content, image, publish date and draft flag.
- The `timestamp` and other automatic fields are not modelled, since they come from the clock. So the store's default ordering is not modelled either: the listing receives the collection already in that order.
- Templates, context dictionaries, `messages.success`, URL reversal and redirect targets are only named in `Response`. The share string built with `quote_plus` (line 33) is left out. Under Python 2, `quote_plus` on non-ASCII unicode content can raise an error, so the real detail view can fail with a server error for a post that `Detail` shows.
- The collection handed to the listing is the table's rows, which are distinct by id. `NoDuplicates(all)` is therefore a hypothesis of the no-duplicates clauses of `Listed` and `PostList`; a sequence that repeats a post is not a table the source can produce.
- `timezone.now()` becomes the `today` parameter. ORM queries and joins, database failures and concurrent edits are not modelled. A post's author carries the joined user row's names.
- Views.PostStore.Create: the new id comes from a counter (`nextId`) that stands for the database's id sequence. The real id assignment is not modelled.
