/**
 * The admin blog editor page: the post being edited, its dirty and saving
 * flags, the title edit that derives the slug and the meta title, the merge
 * update every field edit goes through, the save sequence and the autosave
 * guard. Validation, the store and the clock are parameters; toasts, store
 * calls and navigation are returned as a trace of effects.
 */
module BlogEditor {
  import opened Js
  import opened Ui
  import Slug

  /** A blog post, with the fields the new-post literal names plus `published_at`. */
  datatype Post = Post(
    id: string, title: string, slug: string, excerpt: string, content: string,
    authorName: string, category: string, tags: seq<string>, readingTime: int,
    isPublished: bool, isFeatured: bool, createdAt: string, updatedAt: string,
    metaTitle: string, metaDescription: string, publishedAt: Option<string>)

  /** A `Partial<BlogPost>`: `Some` for each property the update object carries. */
  datatype PostPatch = PostPatch(
    id: Option<string>, title: Option<string>, slug: Option<string>,
    excerpt: Option<string>, content: Option<string>, authorName: Option<string>,
    category: Option<string>, tags: Option<seq<string>>, readingTime: Option<int>,
    isPublished: Option<bool>, isFeatured: Option<bool>, createdAt: Option<string>,
    updatedAt: Option<string>, metaTitle: Option<string>, metaDescription: Option<string>,
    publishedAt: Option<Option<string>>)

  /** The update object `{}`. */
  const NoChanges := PostPatch(None, None, None, None, None, None, None, None,
                               None, None, None, None, None, None, None, None)

  /** The patched property if the update carries it, the old one otherwise. */
  function Pick<T>(update: Option<T>, current: T): T
  {
    if update.Some? then update.value else current
  }

  /** Every property `updates` carries has that value in `p`. */
  predicate Carries(updates: PostPatch, p: Post)
  {
    (updates.id.Some? ==> p.id == updates.id.value) &&
    (updates.title.Some? ==> p.title == updates.title.value) &&
    (updates.slug.Some? ==> p.slug == updates.slug.value) &&
    (updates.excerpt.Some? ==> p.excerpt == updates.excerpt.value) &&
    (updates.content.Some? ==> p.content == updates.content.value) &&
    (updates.authorName.Some? ==> p.authorName == updates.authorName.value) &&
    (updates.category.Some? ==> p.category == updates.category.value) &&
    (updates.tags.Some? ==> p.tags == updates.tags.value) &&
    (updates.readingTime.Some? ==> p.readingTime == updates.readingTime.value) &&
    (updates.isPublished.Some? ==> p.isPublished == updates.isPublished.value) &&
    (updates.isFeatured.Some? ==> p.isFeatured == updates.isFeatured.value) &&
    (updates.createdAt.Some? ==> p.createdAt == updates.createdAt.value) &&
    (updates.updatedAt.Some? ==> p.updatedAt == updates.updatedAt.value) &&
    (updates.metaTitle.Some? ==> p.metaTitle == updates.metaTitle.value) &&
    (updates.metaDescription.Some? ==> p.metaDescription == updates.metaDescription.value) &&
    (updates.publishedAt.Some? ==> p.publishedAt == updates.publishedAt.value)
  }

  /** Every property `updates` omits has in `p` the value it has in `post`. */
  predicate KeepsOmitted(post: Post, updates: PostPatch, p: Post)
  {
    (updates.id.None? ==> p.id == post.id) &&
    (updates.title.None? ==> p.title == post.title) &&
    (updates.slug.None? ==> p.slug == post.slug) &&
    (updates.excerpt.None? ==> p.excerpt == post.excerpt) &&
    (updates.content.None? ==> p.content == post.content) &&
    (updates.authorName.None? ==> p.authorName == post.authorName) &&
    (updates.category.None? ==> p.category == post.category) &&
    (updates.tags.None? ==> p.tags == post.tags) &&
    (updates.readingTime.None? ==> p.readingTime == post.readingTime) &&
    (updates.isPublished.None? ==> p.isPublished == post.isPublished) &&
    (updates.isFeatured.None? ==> p.isFeatured == post.isFeatured) &&
    (updates.createdAt.None? ==> p.createdAt == post.createdAt) &&
    (updates.updatedAt.None? ==> p.updatedAt == post.updatedAt) &&
    (updates.metaTitle.None? ==> p.metaTitle == post.metaTitle) &&
    (updates.metaDescription.None? ==> p.metaDescription == post.metaDescription) &&
    (updates.publishedAt.None? ==> p.publishedAt == post.publishedAt)
  }

  /** `{...post, ...updates}`. */
  function Merge(post: Post, updates: PostPatch): (merged: Post)
    ensures Carries(updates, merged)
    ensures KeepsOmitted(post, updates, merged)
    ensures updates == NoChanges ==> merged == post
  {
    Post(
      Pick(updates.id, post.id), Pick(updates.title, post.title),
      Pick(updates.slug, post.slug), Pick(updates.excerpt, post.excerpt),
      Pick(updates.content, post.content), Pick(updates.authorName, post.authorName),
      Pick(updates.category, post.category), Pick(updates.tags, post.tags),
      Pick(updates.readingTime, post.readingTime), Pick(updates.isPublished, post.isPublished),
      Pick(updates.isFeatured, post.isFeatured), Pick(updates.createdAt, post.createdAt),
      Pick(updates.updatedAt, post.updatedAt), Pick(updates.metaTitle, post.metaTitle),
      Pick(updates.metaDescription, post.metaDescription), Pick(updates.publishedAt, post.publishedAt))
  }

  /** `{...first, ...second}` on update objects: the later one wins where both carry a property. */
  function Then(first: PostPatch, second: PostPatch): PostPatch
  {
    PostPatch(
      if second.id.Some? then second.id else first.id,
      if second.title.Some? then second.title else first.title,
      if second.slug.Some? then second.slug else first.slug,
      if second.excerpt.Some? then second.excerpt else first.excerpt,
      if second.content.Some? then second.content else first.content,
      if second.authorName.Some? then second.authorName else first.authorName,
      if second.category.Some? then second.category else first.category,
      if second.tags.Some? then second.tags else first.tags,
      if second.readingTime.Some? then second.readingTime else first.readingTime,
      if second.isPublished.Some? then second.isPublished else first.isPublished,
      if second.isFeatured.Some? then second.isFeatured else first.isFeatured,
      if second.createdAt.Some? then second.createdAt else first.createdAt,
      if second.updatedAt.Some? then second.updatedAt else first.updatedAt,
      if second.metaTitle.Some? then second.metaTitle else first.metaTitle,
      if second.metaDescription.Some? then second.metaDescription else first.metaDescription,
      if second.publishedAt.Some? then second.publishedAt else first.publishedAt)
  }

  /** Merging `{}` leaves the post as it is. */
  lemma MergeNothing(post: Post)
    ensures Merge(post, NoChanges) == post
  {
  }

  /** Two updates in a row are one update with their properties combined, the later winning. */
  lemma MergeTwice(post: Post, first: PostPatch, second: PostPatch)
    ensures Merge(Merge(post, first), second) == Merge(post, Then(first, second))
  {
  }

  /** Applying the same update twice is applying it once. */
  lemma MergeIdempotent(post: Post, updates: PostPatch)
    ensures Merge(Merge(post, updates), updates) == Merge(post, updates)
  {
  }

  /** The update for a title edit: title, derived slug and meta title, and nothing else. */
  function TitlePatch(post: Post, typed: string): (p: PostPatch)
    ensures Merge(post, p) == post.(title := typed, slug := Slug.Slugify(typed),
                                    metaTitle := NextMetaTitle(post.metaTitle, typed))
  {
    NoChanges.(title := Some(typed), slug := Some(Slug.Slugify(typed)),
               metaTitle := Some(NextMetaTitle(post.metaTitle, typed)))
  }

  /** `post.meta_title || e.target.value`. */
  function NextMetaTitle(metaTitle: string, typed: string): (m: string)
    ensures metaTitle != "" ==> m == metaTitle
    ensures m == metaTitle || m == typed
    ensures m != "" <==> metaTitle != "" || typed != ""
  {
    if metaTitle != "" then metaTitle else typed
  }

  /** The meta title after the titles `typed` are entered one after the other. */
  function MetaTitleAfter(metaTitle: string, typed: seq<string>): string
    decreases |typed|
  {
    if typed == [] then metaTitle else MetaTitleAfter(NextMetaTitle(metaTitle, typed[0]), typed[1..])
  }

  /** The first non-empty title of `typed`, or `""` if there is none. */
  function FirstNonEmpty(typed: seq<string>): (t: string)
    ensures t == "" <==> forall k | 0 <= k < |typed| :: typed[k] == ""
    ensures t != "" ==> t in typed
    ensures t != "" ==> exists k | 0 <= k < |typed| :: typed[k] == t && forall j | 0 <= j < k :: typed[j] == ""
  {
    if typed == [] then ""
    else if typed[0] != "" then typed[0]
    else
      var t := FirstNonEmpty(typed[1..]);
      assert forall k | 1 <= k < |typed| :: typed[k] == typed[1..][k - 1];
      t
  }

  /** Once the meta title is non-empty, no later title edit changes it. */
  lemma {:induction false} MetaTitleSticks(metaTitle: string, typed: seq<string>)
    requires metaTitle != ""
    ensures MetaTitleAfter(metaTitle, typed) == metaTitle
  {
    if typed != [] {
      MetaTitleSticks(metaTitle, typed[1..]);
    }
  }

  /** Starting empty, the meta title becomes the first non-empty title typed, and stays. */
  lemma {:induction false} MetaTitleIsFirstTitle(typed: seq<string>)
    ensures MetaTitleAfter("", typed) == FirstNonEmpty(typed)
  {
    if typed != [] {
      if typed[0] != "" {
        MetaTitleSticks(typed[0], typed[1..]);
      } else {
        MetaTitleIsFirstTitle(typed[1..]);
      }
    }
  }

  /** The post a new editor session starts with (no route id, or the id `new`). */
  function NewPost(now: string): (p: Post)
    ensures !p.isPublished && !p.isFeatured && p.readingTime == 5 && p.tags == []
    ensures p.authorName == "Equipo Capittal" && p.createdAt == now && p.updatedAt == now
    ensures p.id == "" && p.title == "" && p.content == "" && p.metaTitle == ""
  {
    Post("", "", "", "", "", "Equipo Capittal", "", [], 5, false, false, now, now, "", "", None)
  }

  /** The data sent to the store: the post with `published_at` now if it is published, `null` otherwise. */
  function PostData(post: Post, now: string): (d: Post)
    ensures d.publishedAt == Some(now) <==> post.isPublished
    ensures d.publishedAt == None <==> !post.isPublished
    ensures d.(publishedAt := post.publishedAt) == post
  {
    post.(publishedAt := if post.isPublished then Some(now) else None)
  }

  /** The autosave timer's content check: `post.title && post.content`. */
  predicate HasBasicContent(post: Post)
  {
    post.title != "" && post.content != ""
  }

  /** A new post is never autosaved before both a title and content are typed. */
  lemma NewPostNotAutosaved(now: string)
    ensures !HasBasicContent(NewPost(now))
  {
  }

  /** The first post of `posts` whose id is `id`, if any: `posts.find(p => p.id === id)`. */
  function FindById(posts: seq<Post>, id: string): (r: Option<Post>)
    ensures r.Some? <==> exists k | 0 <= k < |posts| :: posts[k].id == id
    ensures r.Some? ==> r.value in posts && r.value.id == id
    ensures r.Some? ==> exists k | 0 <= k < |posts| :: posts[k] == r.value && forall j | 0 <= j < k :: posts[j].id != id
  {
    if posts == [] then None
    else if posts[0].id == id then Some(posts[0])
    else
      var r := FindById(posts[1..], id);
      assert forall k | 1 <= k < |posts| :: posts[k] == posts[1..][k - 1];
      r
  }

  /** What the page does to the outside world, in order. */
  datatype Effect =
    | ShowToast(toast: Toast)
    | UpdatePost(id: string, data: Post)     // `updatePostHook(id, postData)`
    | CreatePost(data: Post)                 // `createPost(postData)`
    | Navigate(path: string, replace: bool)
    | ClearErrors

  const NotFoundToast := Toast(Destructive, "Post no encontrado", "El post que buscas no existe")
  const RequiredFieldsToast := Toast(Destructive, "Campos requeridos", "Por favor completa todos los campos obligatorios")
  const SaveFailedToast := Toast(Destructive, "Error", "No se pudo guardar el post")

  /** The confirmation after a manual save: "updated" for an existing post, "created" for a new one. */
  function SavedToast(existing: bool): Toast
  {
    Toast(Default, "Guardado", if existing then "Post actualizado" else "Post creado")
  }

  /** The editor page's state for one route. */
  class Editor {
    /** The route parameter `id`. */
    const routeId: Option<string>
    var post: Option<Post>
    var saving: bool
    var hasUnsavedChanges: bool

    /** `id && id !== 'new'`: the route names a stored post. */
    predicate Existing()
    {
      routeId.Some? && routeId.value != "" && routeId.value != "new"
    }

    /** The autosave guard: unsaved changes on a post with a title and content. */
    predicate AutosaveDue()
      reads this
    {
      hasUnsavedChanges && post.Some? && HasBasicContent(post.value)
    }

    constructor(routeId: Option<string>)
      ensures this.routeId == routeId
      ensures post == None && !saving && !hasUnsavedChanges
    {
      this.routeId := routeId;
      post := None;
      saving := false;
      hasUnsavedChanges := false;
    }

    /**
     * The load effect: an existing route takes its post from `posts`, or
     * toasts and leaves for the blog list when there is none; any other
     * route starts a new post.
     */
    method Load(posts: seq<Post>, now: string) returns (effects: seq<Effect>)
      modifies this
      ensures !Existing() ==> post == Some(NewPost(now)) && effects == []
      ensures Existing() && FindById(posts, routeId.value).Some? ==>
        post == FindById(posts, routeId.value) && effects == []
      ensures Existing() && FindById(posts, routeId.value).None? ==>
        post == old(post) && effects == [ShowToast(NotFoundToast), Navigate("/admin/blog-v2", false)]
      ensures saving == old(saving) && hasUnsavedChanges == old(hasUnsavedChanges)
    {
      effects := [];
      if Existing() {
        var existing := FindById(posts, routeId.value);
        if existing.Some? {
          post := existing;
        } else {
          effects := [ShowToast(NotFoundToast), Navigate("/admin/blog-v2", false)];
        }
      } else {
        post := Some(NewPost(now));
      }
    }

    /** `updatePostData`: without a post nothing happens; otherwise merge and mark dirty. */
    method UpdatePostData(updates: PostPatch)
      modifies this
      ensures old(post).None? ==> post == old(post) && hasUnsavedChanges == old(hasUnsavedChanges)
      ensures old(post).Some? ==> post == Some(Merge(old(post).value, updates)) && hasUnsavedChanges
      ensures saving == old(saving)
    {
      if post.None? {
        return;
      }
      post := Some(Merge(post.value, updates));
      hasUnsavedChanges := true;
    }

    /**
     * The title input's change handler. The input is only rendered once a
     * post is loaded, so a post is present.
     */
    method EditTitle(typed: string)
      requires post.Some?
      modifies this
      ensures post == Some(old(post).value.(title := typed, slug := Slug.Slugify(typed),
                                            metaTitle := NextMetaTitle(old(post).value.metaTitle, typed)))
      ensures hasUnsavedChanges && saving == old(saving)
    {
      UpdatePostData(TitlePatch(post.value, typed));
    }

    /** The save button is enabled unless a save is pending (`disabled={saving}`). */
    predicate SaveEnabled()
      reads this
    {
      !saving
    }

    /**
     * The part of `handleSave` before its `await`. Without a post, or on a
     * manual save that fails validation, nothing changes and no save starts.
     * Otherwise `saving` becomes true and the update or creation of the post
     * data is issued; the save is then pending until `FinishSave`.
     */
    method StartSave(isAutoSave: bool, valid: bool, now: string) returns (effects: seq<Effect>, started: bool)
      modifies this
      ensures post == old(post) && hasUnsavedChanges == old(hasUnsavedChanges)
      ensures started <==> old(post).Some? && (isAutoSave || valid)
      ensures old(post).None? ==> effects == [] && saving == old(saving)
      ensures old(post).Some? && !isAutoSave && !valid ==>
        effects == [ShowToast(RequiredFieldsToast)] && saving == old(saving)
      ensures started ==>
        var data := PostData(old(post).value, now);
        && saving && !SaveEnabled()
        && effects == [if Existing() then UpdatePost(routeId.value, data) else CreatePost(data)]
    {
      effects := [];
      started := false;
      if post.None? {
        return;
      }
      if !isAutoSave && !valid {
        effects := [ShowToast(RequiredFieldsToast)];
        return;
      }
      saving := true;
      var postData := PostData(post.value, now);
      if Existing() {
        effects := [UpdatePost(routeId.value, postData)];
      } else {
        effects := [CreatePost(postData)];
      }
      started := true;
    }

    /**
     * The part of `handleSave` after its `await`, given the store's answer
     * (for a creation, the new post's id if it returns one). Success clears
     * the dirty flag, even when the post was edited while the save was
     * pending; failure leaves it. `saving` ends false either way.
     */
    method FinishSave(isAutoSave: bool, store: Result<Option<string>>) returns (effects: seq<Effect>)
      modifies this
      ensures post == old(post) && !saving && SaveEnabled()
      ensures store.Ok? ==>
        var navigation :=
          if !Existing() && store.value.Some? then [Navigate("/admin/blog/edit/" + store.value.value, true)] else [];
        var confirmation := if isAutoSave then [] else [ShowToast(SavedToast(Existing()))];
        && !hasUnsavedChanges
        && effects == navigation + [ClearErrors] + confirmation
      ensures store.Err? ==>
        hasUnsavedChanges == old(hasUnsavedChanges) && effects == [ShowToast(SaveFailedToast)]
    {
      effects := [];
      if store.Ok? {
        if !Existing() && store.value.Some? {
          effects := [Navigate("/admin/blog/edit/" + store.value.value, true)];
        }
        hasUnsavedChanges := false;
        effects := effects + [ClearErrors];
        if !isAutoSave {
          effects := effects + [ShowToast(SavedToast(Existing()))];
        }
      } else {
        effects := [ShowToast(SaveFailedToast)];
      }
      saving := false;
    }

    /**
     * `handleSave` when the store answers before anything else happens on
     * the page: `StartSave`, then `FinishSave` if a save started. Without a
     * post, or on a manual save that fails validation, nothing changes;
     * otherwise the post data is stored, the dirty flag is cleared only on
     * success, and `saving` ends false either way.
     */
    method HandleSave(isAutoSave: bool, valid: bool, store: Result<Option<string>>, now: string)
      returns (effects: seq<Effect>)
      modifies this
      ensures old(post).None? ==>
        effects == [] && post == old(post) && saving == old(saving)
        && hasUnsavedChanges == old(hasUnsavedChanges)
      ensures old(post).Some? && !isAutoSave && !valid ==>
        effects == [ShowToast(RequiredFieldsToast)] && post == old(post) && saving == old(saving)
        && hasUnsavedChanges == old(hasUnsavedChanges)
      ensures old(post).Some? && (isAutoSave || valid) ==>
        var data := PostData(old(post).value, now);
        var call := if Existing() then UpdatePost(routeId.value, data) else CreatePost(data);
        var navigation :=
          if !Existing() && store.Ok? && store.value.Some?
          then [Navigate("/admin/blog/edit/" + store.value.value, true)] else [];
        var confirmation := if isAutoSave then [] else [ShowToast(SavedToast(Existing()))];
        && post == old(post) && !saving
        && (store.Ok? ==> !hasUnsavedChanges && effects == [call] + navigation + [ClearErrors] + confirmation)
        && (store.Err? ==> hasUnsavedChanges == old(hasUnsavedChanges)
                           && effects == [call, ShowToast(SaveFailedToast)])
    {
      var started;
      effects, started := StartSave(isAutoSave, valid, now);
      if started {
        var finish := FinishSave(isAutoSave, store);
        effects := effects + finish;
      }
    }

    /** The autosave timer: it saves, skipping validation, only when `AutosaveDue` holds. */
    method AutosaveTimer(store: Result<Option<string>>, now: string) returns (effects: seq<Effect>)
      modifies this
      ensures !old(AutosaveDue()) ==>
        effects == [] && post == old(post) && saving == old(saving)
        && hasUnsavedChanges == old(hasUnsavedChanges)
      ensures old(AutosaveDue()) ==>
        && post == old(post) && !saving
        && effects != []
        && effects[0] == (if Existing() then UpdatePost(routeId.value, PostData(old(post).value, now))
                          else CreatePost(PostData(old(post).value, now)))
        && ShowToast(RequiredFieldsToast) !in effects
        && ShowToast(SavedToast(Existing())) !in effects
        && (store.Ok? <==> !hasUnsavedChanges)
      ensures old(AutosaveDue()) ==>
        var data := PostData(old(post).value, now);
        var call := if Existing() then UpdatePost(routeId.value, data) else CreatePost(data);
        var navigation :=
          if !Existing() && store.Ok? && store.value.Some?
          then [Navigate("/admin/blog/edit/" + store.value.value, true)] else [];
        && (store.Ok? ==> effects == [call] + navigation + [ClearErrors])
        && (store.Err? ==> effects == [call, ShowToast(SaveFailedToast)])
    {
      effects := [];
      if hasUnsavedChanges && post.Some? && HasBasicContent(post.value) {
        effects := HandleSave(true, false, store, now);
      }
    }
  }
}
