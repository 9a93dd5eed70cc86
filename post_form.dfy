/**
  The post form's state: the four form fields, the error shown above the
  form and the log of the backend and navigation calls its submissions
  made. The field handlers keep the slug derived from what was typed; the
  submit handler runs one submission against given backend outcomes.
 */
module Form {
  import opened Slug
  import opened Submission

  /** The form's initial values: those of the post being edited, or empty
      fields and status "active" for a new post. The slug starts as the
      post's document id, not as the slug of its title. */
  function Defaults(post: Option<Post>): (v: FormValues)
    ensures post.None? ==> v == FormValues("", "", "", "active")
    ensures post.Some? ==>
      v.title == post.value.title && v.slug == post.value.id && v.content == post.value.content
    ensures post.Some? && post.value.status != "" ==> v.status == post.value.status
    ensures post.Some? && post.value.status == "" ==> v.status == "active"
    ensures v.status != ""
  {
    match post
    case None => FormValues("", "", "", "active")
    case Some(p) => FormValues(Or(p.title, ""), Or(p.id, ""), Or(p.content, ""), Or(p.status, "active"))
  }

  class PostForm {
    /** The post being edited, if any; fixed for the life of the form. */
    const post: Option<Post>
    var title: string
    var slug: string
    var content: string
    var status: string
    /** The message displayed above the form; empty means none. */
    var error: string
    /** Every outward call the form's submissions made, in order. */
    var effects: seq<Effect>

    /** The values the submit handler receives. */
    function Values(): FormValues
      reads this
    {
      FormValues(title, slug, content, status)
    }

    constructor (post: Option<Post>)
      ensures this.post == post && Values() == Defaults(post)
      ensures error == "" && effects == []
    {
      this.post := post;
      var v := Defaults(post);
      title, slug, content, status := v.title, v.slug, v.content, v.status;
      error, effects := "", [];
    }

    /** A change of the title. The watch on the form sees a change named
        "title" and overwrites the slug with the slug of the new title. */
    method ChangeTitle(t: string)
      modifies this`title, this`slug
      ensures title == t && slug == SlugTransform(Str(t))
      ensures OnlySlugChars(slug)
    {
      title := t;
      slug := SlugTransform(Str(t));
    }

    /** Typing into the slug field: the input handler stores the slug of
        what was typed, so a hand-written slug is normalised too. */
    method InputSlug(v: string)
      modifies this`slug
      ensures slug == SlugTransform(Str(v))
      ensures OnlySlugChars(slug)
    {
      slug := SlugTransform(Str(v));
    }

    /** A change of the content; the watch ignores it. */
    method ChangeContent(c: string)
      modifies this`content
      ensures content == c
    {
      content := c;
    }

    /** A change of the status; the watch ignores it. */
    method ChangeStatus(s: string)
      modifies this`status
      ensures status == s
    {
      status := s;
    }

    /** The submit handler. It clears the error, then runs the edit or the
        create branch step by step, appending each call it makes to the log
        and stopping at the first step that fails. */
    method Submit(image: seq<LocalFile>, user: Option<string>, backend: Backend)
      modifies this`error, this`effects
      ensures effects == old(effects) + SubmitRun(post, Values(), image, user, backend).effects
      ensures error == SubmitRun(post, Values(), image, user, backend).error
    {
      error := "";
      var data := Values();
      if post.Some? {
        SubmitEdit(post.value, data, image, backend);
      } else {
        SubmitCreate(data, image, user, backend);
      }
    }

    /** The edit branch: upload the picked image, delete the old one when a
        file came back, update the post, navigate to it when it came back. A
        throw anywhere is caught by the handler's outer catch. */
    method SubmitEdit(p: Post, data: FormValues, image: seq<LocalFile>, backend: Backend)
      requires error == ""
      modifies this`error, this`effects
      ensures effects == old(effects) + EditRun(p, data, image, backend).effects
      ensures error == EditRun(p, data, image, backend).error
    {
      var fileId: Option<string> := None;
      if |image| > 0 {
        effects := effects + [UploadFile(image[0])];
        match backend.upload {
          case Threw(m) =>
            error := Or(m, DefaultError);
            return;
          case ResolvedNull =>
          case Resolved(id) =>
            fileId := Some(id);
        }
      }
      if fileId.Some? {
        effects := effects + [DeleteFile(p.featuredImage)];
      }
      effects := effects + [UpdatePost(p.id, PostData(data, fileId))];
      match backend.save {
        case Threw(m) =>
          error := Or(m, DefaultError);
        case ResolvedNull =>
        case Resolved(id) =>
          effects := effects + [Navigate(PostPath(id))];
      }
    }

    /** The create branch: require a picked image, upload it, record the
        returned file as the featured image, require a signed-in user,
        create the post for that user and navigate to it when it came back.
        The inner catch turns a throw of the upload or of the creation into
        the upload-failure message. */
    method SubmitCreate(data: FormValues, image: seq<LocalFile>, user: Option<string>, backend: Backend)
      requires error == ""
      modifies this`error, this`effects
      ensures effects == old(effects) + CreateRun(data, image, user, backend).effects
      ensures error == CreateRun(data, image, user, backend).error
    {
      if |image| == 0 {
        error := NoImageError;
        return;
      }
      effects := effects + [UploadFile(image[0])];
      match backend.upload {
        case Threw(m) =>
          error := UploadFailed(m);
        case ResolvedNull =>
        case Resolved(fileId) =>
          var payload := PostData(data, None);
          payload := payload.(featuredImage := Some(fileId));
          if user.None? {
            error := NoUserError;
            return;
          }
          effects := effects + [CreatePost(payload, user.value)];
          match backend.save {
            case Threw(m) =>
              error := UploadFailed(m);
            case ResolvedNull =>
              error := CreateFailedError;
            case Resolved(id) =>
              effects := effects + [Navigate(PostPath(id))];
          }
      }
    }
  }
}
