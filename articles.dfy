/** The BlogPost table and the two read-only views over it: `blog_list` and `blog_details`. */
module Articles {
  import opened Wrappers

  /** A BlogPost row: its id, the owning user's id, and the three saved fields. */
  datatype BlogPost = BlogPost(id: nat, owner: nat, title: string, link: string, content: string)

  /** Row ids grow with insertion order, so no two rows share an id. */
  predicate IdsIncreasing(posts: seq<BlogPost>) {
    forall i, j :: 0 <= i < j < |posts| ==> posts[i].id < posts[j].id
  }

  /** The table's keys: ids increase and lie in `1 .. next - 1`. */
  predicate PostKeys(posts: seq<BlogPost>, next: nat) {
    IdsIncreasing(posts) && forall i :: 0 <= i < |posts| ==> 0 < posts[i].id < next
  }

  /** Appending a row with the next id keeps the keys. */
  lemma {:induction false} AppendKeepsKeys(posts: seq<BlogPost>, next: nat, post: BlogPost)
    requires PostKeys(posts, next) && 0 < next && post.id == next
    ensures PostKeys(posts + [post], next + 1)
  {
    var after := posts + [post];
    forall i, j | 0 <= i < j < |after| ensures after[i].id < after[j].id {
      assert after[i] == posts[i];
      if j < |posts| { assert after[j] == posts[j]; }
    }
    forall i | 0 <= i < |after| ensures 0 < after[i].id < next + 1 {
      if i < |posts| { assert after[i] == posts[i]; }
    }
  }

  /** The lookup of `get_object_or_404(BlogPost, id=pk)`: the row with id `pk`, if there is one. */
  function FindPost(posts: seq<BlogPost>, pk: int): (r: Option<BlogPost>)
    ensures r.Some? ==> r.value in posts && r.value.id == pk
    ensures r.None? <==> forall i :: 0 <= i < |posts| ==> posts[i].id != pk
  {
    if posts == [] then None
    else if posts[0].id == pk then Some(posts[0])
    else FindPost(posts[1..], pk)
  }

  /** With unique ids, the row found is the one row that has that id. */
  lemma {:induction false} FindPostUnique(posts: seq<BlogPost>, pk: int, k: nat)
    requires IdsIncreasing(posts) && k < |posts| && posts[k].id == pk
    ensures FindPost(posts, pk) == Some(posts[k])
  {
    if k > 0 {
      assert posts[0].id < posts[k].id;
      assert posts[1..][k - 1] == posts[k];
      FindPostUnique(posts[1..], pk, k - 1);
    }
  }

  /** What `blog_details` does: 404, render the article, or redirect to the list. */
  datatype DetailPage = NotFound | ShowArticle(post: BlogPost) | RedirectToList

  /** `blog_details`: `get_object_or_404`, then the article only for its owner. */
  function BlogDetails(posts: seq<BlogPost>, user: nat, pk: int): (p: DetailPage)
    ensures p.ShowArticle? ==> p.post in posts && p.post.id == pk && p.post.owner == user
    ensures p.NotFound? <==> forall i :: 0 <= i < |posts| ==> posts[i].id != pk
    ensures p.RedirectToList? ==> exists i :: 0 <= i < |posts| && posts[i].id == pk && posts[i].owner != user
  {
    match FindPost(posts, pk)
    case None => NotFound
    case Some(post) => if post.owner == user then ShowArticle(post) else RedirectToList
  }

  /** An existing article is shown exactly when the requester owns it; otherwise the view redirects. */
  lemma {:induction false} DetailsOnlyForOwner(posts: seq<BlogPost>, user: nat, k: nat)
    requires IdsIncreasing(posts) && k < |posts|
    ensures BlogDetails(posts, user, posts[k].id) ==
              if posts[k].owner == user then ShowArticle(posts[k]) else RedirectToList
  {
    FindPostUnique(posts, posts[k].id, k);
  }

  /** `blog_list`: `BlogPost.objects.filter(user=request.user)`, in table order. */
  function BlogList(posts: seq<BlogPost>, user: nat): (r: seq<BlogPost>)
    ensures |r| <= |posts|
    ensures forall k :: 0 <= k < |r| ==> r[k].owner == user && r[k] in posts
    ensures forall i :: 0 <= i < |posts| && posts[i].owner == user ==> posts[i] in r
  {
    if posts == [] then []
    else if posts[0].owner == user then [posts[0]] + BlogList(posts[1..], user)
    else BlogList(posts[1..], user)
  }

  /** The list keeps the table's order, so its ids also increase. */
  lemma {:induction false} BlogListOrdered(posts: seq<BlogPost>, user: nat)
    requires IdsIncreasing(posts)
    ensures IdsIncreasing(BlogList(posts, user))
  {
    if posts != [] {
      assert IdsIncreasing(posts[1..]);
      BlogListOrdered(posts[1..], user);
      var rest := BlogList(posts[1..], user);
      forall k | 0 <= k < |rest| ensures posts[0].id < rest[k].id {
        assert rest[k] in posts[1..];
      }
    }
  }
}
