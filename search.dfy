/**
 * The free-text search of the post listing: a post matches a query when at
 * least one of five fields contains it, ignoring case. Case folding is
 * modelled on ASCII letters only.
 */
module Search {
  import opened Posts
  import opened Seqs

  /** ASCII lower-casing of one character. */
  function Lower(c: char): (d: char)
    ensures !('A' <= d <= 'Z')
    ensures !('A' <= c <= 'Z') ==> d == c
  {
    if 'A' <= c <= 'Z' then (c as int + ('a' as int - 'A' as int)) as char else c
  }

  /** A string with every ASCII capital lowered. */
  function Fold(s: string): (r: string)
    ensures |r| == |s|
  {
    seq(|s|, i requires 0 <= i < |s| => Lower(s[i]))
  }

  /** Folding twice is folding once. */
  lemma FoldIdempotent(s: string)
    ensures Fold(Fold(s)) == Fold(s)
  {
  }

  predicate IsPrefix(p: string, s: string)
  {
    |p| <= |s| && s[..|p|] == p
  }

  /** `s` contains `sub` somewhere, checked position by position. */
  predicate Contains(s: string, sub: string)
    decreases |s|
  {
    IsPrefix(sub, s) || (s != [] && Contains(s[1..], sub))
  }

  /** `sub` occurs in `s` starting at position `i`. */
  predicate OccursAt(s: string, sub: string, i: int)
  {
    0 <= i <= |s| - |sub| && s[i..i + |sub|] == sub
  }

  /** `Contains` is exactly "`sub` occurs at some position of `s`". */
  lemma {:induction false} ContainsIffOccurs(s: string, sub: string)
    ensures Contains(s, sub) <==> exists i :: OccursAt(s, sub, i)
  {
    if s == [] {
      if Contains(s, sub) {
        assert OccursAt(s, sub, 0);
      }
      if exists i :: OccursAt(s, sub, i) {
        var i :| OccursAt(s, sub, i);
        assert IsPrefix(sub, s);
      }
    } else {
      ContainsIffOccurs(s[1..], sub);
      if Contains(s, sub) {
        if IsPrefix(sub, s) {
          assert OccursAt(s, sub, 0);
        } else {
          var i :| OccursAt(s[1..], sub, i);
          assert s[1..][i..i + |sub|] == s[i + 1..i + 1 + |sub|];
          assert OccursAt(s, sub, i + 1);
        }
      }
      if exists i :: OccursAt(s, sub, i) {
        var i :| OccursAt(s, sub, i);
        if i > 0 {
          assert s[1..][i - 1..i - 1 + |sub|] == s[i..i + |sub|];
          assert OccursAt(s[1..], sub, i - 1);
        } else {
          assert IsPrefix(sub, s);
        }
      }
    }
  }

  /** Case-insensitive containment (Django's `icontains`). */
  predicate IContains(field: string, query: string)
    ensures IContains(field, query) <==> exists i :: OccursAt(Fold(field), Fold(query), i)
  {
    ContainsIffOccurs(Fold(field), Fold(query));
    Contains(Fold(field), Fold(query))
  }

  /** Capitalisation of the query does not change the outcome. */
  lemma IContainsIgnoresCase(field: string, query: string)
    ensures IContains(field, query) <==> IContains(field, Fold(query))
    ensures IContains(field, query) <==> IContains(Fold(field), query)
  {
    FoldIdempotent(query);
    FoldIdempotent(field);
  }

  /** Every field contains the empty query. */
  lemma EmptyQueryIsEverywhere(field: string)
    ensures IContains(field, "")
  {
    assert IsPrefix(Fold(""), Fold(field));
  }

  /** The five searched fields, any one of which may match. */
  predicate Matches(p: Post, query: string)
    ensures Matches(p, query) <==> exists i :: 0 <= i < 5 && IContains(SearchedFields(p)[i], query)
    ensures query == "" ==> Matches(p, query)
  {
    EmptyQueryIsEverywhere(p.title);
    assert IContains(SearchedFields(p)[0], query) <==> IContains(p.title, query);
    assert IContains(SearchedFields(p)[1], query) <==> IContains(p.content, query);
    assert IContains(SearchedFields(p)[2], query) <==> IContains(p.author.firstName, query);
    assert IContains(SearchedFields(p)[3], query) <==> IContains(p.author.lastName, query);
    assert IContains(SearchedFields(p)[4], query) <==> IContains(p.image, query);
    || IContains(p.title, query)
    || IContains(p.content, query)
    || IContains(p.author.firstName, query)
    || IContains(p.author.lastName, query)
    || IContains(p.image, query)
  }

  /** The searched fields of a post: title, content, the author's two names, image. */
  function SearchedFields(p: Post): seq<string>
  {
    [p.title, p.content, p.author.firstName, p.author.lastName, p.image]
  }

  /** A query that is absent or empty does not filter (it is false as a condition). */
  predicate Filters(query: Option<string>)
    ensures Filters(query) <==> query != None && query != Some("")
  {
    query.Some? && query.value != ""
  }

  /**
   * Narrows `base` by `query`: an absent or empty query returns `base`
   * itself; otherwise the matching posts of `base` in their order, each kept
   * once however many of its fields match.
   */
  function SearchPosts(base: seq<Post>, query: Option<string>): (r: seq<Post>)
    ensures !Filters(query) ==> r == base
    ensures forall p :: p in r <==> p in base && (!Filters(query) || Matches(p, query.value))
    ensures IsSubsequence(r, base)
    ensures NoDuplicates(base) ==> NoDuplicates(r)
  {
    if !Filters(query) then
      SubsequenceReflexive(base);
      base
    else
      var keep := p => Matches(p, query.value);
      FilterFacts(base, keep);
      Filter(base, keep)
  }

  /** Each post appears in the result as often as in the base if it matches, else never. */
  lemma SearchCount(base: seq<Post>, query: string, p: Post)
    requires query != ""
    ensures multiset(SearchPosts(base, Some(query)))[p]
            == if Matches(p, query) then multiset(base)[p] else 0
  {
    FilterCount(base, p => Matches(p, query), p);
  }

  /** A post found through its author's last name alone is listed exactly once. */
  lemma {:induction false} LastNameMatchListedOnce(base: seq<Post>, query: string, p: Post)
    requires query != ""
    requires multiset(base)[p] == 1
    requires IContains(p.author.lastName, query)
    requires !IContains(p.title, query) && !IContains(p.content, query)
    requires !IContains(p.author.firstName, query) && !IContains(p.image, query)
    ensures multiset(SearchPosts(base, Some(query)))[p] == 1
  {
    SearchCount(base, query, p);
  }

  /** The filter facts `SearchPosts` promises, gathered for its body. */
  lemma FilterFacts(base: seq<Post>, keep: Post -> bool)
    ensures IsSubsequence(Filter(base, keep), base)
    ensures NoDuplicates(base) ==> NoDuplicates(Filter(base, keep))
    ensures forall p :: p in base && keep(p) ==> p in Filter(base, keep)
  {
    FilterIsSubsequence(base, keep);
    if NoDuplicates(base) {
      FilterNoDuplicates(base, keep);
    }
    forall p | p in base && keep(p) ensures p in Filter(base, keep) {
      FilterMembership(base, keep, p);
    }
  }
}
