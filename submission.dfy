/**
  The submit handler of the post form as a sequential protocol.

  Every backend call (upload of the chosen image, creation or update of the
  post) is replaced by the outcome it ends with, given as an input; the
  handler's outward actions are recorded, in order, in an effect log, and
  the error string shown above the form is its other result. One
  submission is one run: there is no interleaving with other submissions.
 */
module Submission {

  datatype Option<T> = None | Some(value: T)

  /** A stored post, as far as the form reads it: its document id, the
      three text fields and the id of its featured image. */
  datatype Post = Post(id: string, title: string, content: string, status: string, featuredImage: string)

  /** The text fields the form holds and hands to the submit handler. */
  datatype FormValues = FormValues(title: string, slug: string, content: string, status: string)

  /** A file picked in the image input; `name` stands for its contents. */
  datatype LocalFile = LocalFile(name: string)

  /** How an awaited backend call ends: with an object that has an id, with
      a falsy value, or by throwing an error whose message is given. */
  datatype CallOutcome = Resolved(id: string) | ResolvedNull | Threw(message: string)

  /** The outcomes of the two backend calls one submission can await: the
      image upload and the save (create or update) of the post. */
  datatype Backend = Backend(upload: CallOutcome, save: CallOutcome)

  /** The document sent to the backend: the form's fields spread out, plus
      the featured image id when one is set. */
  datatype PostData = PostData(fields: FormValues, featuredImage: Option<string>)

  /** The outward actions of a submission. */
  datatype Effect =
    | UploadFile(file: LocalFile)
    | DeleteFile(fileId: string)
    | UpdatePost(postId: string, data: PostData)
    | CreatePost(data: PostData, userId: string)
    | Navigate(path: string)

  /** What a submission did and the error it left for display. */
  datatype Run = Run(effects: seq<Effect>, error: string)

  const NoImageError := "Please select an image file"
  const NoUserError := "User data not available. Please log in again."
  const CreateFailedError := "Failed to create post after file upload"
  const DefaultError := "Error creating post"

  /** The message shown when the upload, or the creation that follows it,
      throws. */
  function UploadFailed(message: string): (r: string)
    ensures |r| > |message|
    ensures r[|r| - |message|..] == message
  {
    "File upload failed: " + message
  }

  /** The route of a post page. */
  function PostPath(id: string): (r: string)
    ensures |r| > |id| && r[|r| - |id|..] == id
  {
    "/post/" + id
  }

  /** JavaScript's `a || b` on two strings: the empty string is falsy. */
  function Or(a: string, b: string): (r: string)
    ensures a != [] ==> r == a
    ensures a == [] ==> r == b
    ensures b != [] ==> r != []
  {
    if a != [] then a else b
  }

  // ---------------------------------------------------------------------
  // Observations of an effect log
  // ---------------------------------------------------------------------

  /** The stage of the protocol an action belongs to. */
  function Stage(e: Effect): nat
  {
    match e
    case UploadFile(_) => 0
    case DeleteFile(_) => 1
    case UpdatePost(_, _) => 2
    case CreatePost(_, _) => 2
    case Navigate(_) => 3
  }

  /** The log holds an action of stage `k`. */
  predicate Has(effects: seq<Effect>, k: nat)
  {
    exists i :: 0 <= i < |effects| && Stage(effects[i]) == k
  }

  predicate Uploaded(effects: seq<Effect>) { Has(effects, 0) }

  predicate Deleted(effects: seq<Effect>) { Has(effects, 1) }

  /** The post was created or updated. */
  predicate Saved(effects: seq<Effect>) { Has(effects, 2) }

  predicate Navigated(effects: seq<Effect>) { Has(effects, 3) }

  /** The actions come in stage order and no stage occurs twice. */
  predicate InStageOrder(effects: seq<Effect>)
  {
    forall i, j :: 0 <= i < j < |effects| ==> Stage(effects[i]) < Stage(effects[j])
  }

  /** Appending an action adds exactly its stage to the stages present. */
  lemma HasAppend(effects: seq<Effect>, e: Effect, k: nat)
    ensures Has(effects + [e], k) <==> Has(effects, k) || Stage(e) == k
  {
    var l := effects + [e];
    if Has(effects, k) {
      var i :| 0 <= i < |effects| && Stage(effects[i]) == k;
      assert l[i] == effects[i];
    }
    if Stage(e) == k {
      assert l[|effects|] == e;
    }
    if Has(l, k) {
      var i :| 0 <= i < |l| && Stage(l[i]) == k;
      if i < |effects| {
        assert l[i] == effects[i];
      }
    }
  }

  /** Appending an action of a later stage than the last one keeps the
      log in stage order. */
  lemma OrderAppend(effects: seq<Effect>, e: Effect)
    requires InStageOrder(effects)
    requires forall i :: 0 <= i < |effects| ==> Stage(effects[i]) < Stage(e)
    ensures InStageOrder(effects + [e])
  {
    var l := effects + [e];
    forall i, j | 0 <= i < j < |l| ensures Stage(l[i]) < Stage(l[j]) {
      assert l[i] == effects[i];
      if j < |effects| {
        assert l[j] == effects[j];
      }
    }
  }

  /** The save call, and the navigation a returned post leads to, after
      actions of the upload stages. */
  lemma SaveTail(pre: seq<Effect>, save: Effect, outcome: CallOutcome)
    requires InStageOrder(pre)
    requires forall i :: 0 <= i < |pre| ==> Stage(pre[i]) < 2
    requires save.UpdatePost? || save.CreatePost?
    ensures var l := pre + [save] + (if outcome.Resolved? then [Navigate(PostPath(outcome.id))] else []);
      InStageOrder(l) && Saved(l) &&
      (Navigated(l) <==> outcome.Resolved?) &&
      (Uploaded(l) <==> Uploaded(pre)) && (Deleted(l) <==> Deleted(pre))
  {
    var l1 := pre + [save];
    OrderAppend(pre, save);
    HasAppend(pre, save, 0);
    HasAppend(pre, save, 1);
    HasAppend(pre, save, 2);
    HasAppend(pre, save, 3);
    assert !Has(pre, 3);
    if outcome.Resolved? {
      var nav := Navigate(PostPath(outcome.id));
      OrderAppend(l1, nav);
      HasAppend(l1, nav, 0);
      HasAppend(l1, nav, 1);
      HasAppend(l1, nav, 2);
      HasAppend(l1, nav, 3);
    } else {
      assert l1 + [] == l1;
    }
  }

  // ---------------------------------------------------------------------
  // The two branches
  // ---------------------------------------------------------------------

  /** The update call and what follows it, after the actions `before`. */
  function UpdateStep(post: Post, data: FormValues, fileId: Option<string>, before: seq<Effect>, save: CallOutcome): (r: Run)
    ensures r.effects == before + [UpdatePost(post.id, PostData(data, fileId))] +
      (if save.Resolved? then [Navigate(PostPath(save.id))] else [])
    ensures save.Threw? ==> r.error == Or(save.message, DefaultError) && r.error != ""
    ensures !save.Threw? ==> r.error == ""
  {
    var effects := before + [UpdatePost(post.id, PostData(data, fileId))];
    match save
    case Threw(m) => Run(effects, Or(m, DefaultError))
    case ResolvedNull => Run(effects, "")
    case Resolved(id) => Run(effects + [Navigate(PostPath(id))], "")
  }

  /** Editing an existing post. The image, when one is picked, is uploaded
      first; a returned file makes the old featured image be deleted and
      its id go into the update; the update is then awaited, and a returned
      post is navigated to. Any throw ends the run with the thrown message,
      or the default text when the message is empty; a falsy update result
      ends it silently. */
  function EditRun(post: Post, data: FormValues, image: seq<LocalFile>, backend: Backend): (r: Run)
    ensures |r.effects| > 0
    ensures |image| == 0 ==> r.effects[0] == UpdatePost(post.id, PostData(data, None))
    ensures |image| > 0 ==> r.effects[0] == UploadFile(image[0])
    ensures |image| > 0 && backend.upload.Threw? ==>
      r == Run([UploadFile(image[0])], Or(backend.upload.message, DefaultError))
    ensures |image| > 0 && backend.upload.ResolvedNull? ==>
      |r.effects| > 1 && r.effects[1] == UpdatePost(post.id, PostData(data, None))
    ensures |image| > 0 && backend.upload.Resolved? ==>
      (|r.effects| > 2 && r.effects[1] == DeleteFile(post.featuredImage) &&
       r.effects[2] == UpdatePost(post.id, PostData(data, Some(backend.upload.id))))
    ensures !(|image| > 0 && backend.upload.Threw?) ==>
      ((backend.save.Threw? ==> r.error == Or(backend.save.message, DefaultError)) &&
       (!backend.save.Threw? ==> r.error == ""))
  {
    if |image| == 0 then
      UpdateStep(post, data, None, [], backend.save)
    else
      var upload := [UploadFile(image[0])];
      match backend.upload
      case Threw(m) => Run(upload, Or(m, DefaultError))
      case ResolvedNull => UpdateStep(post, data, None, upload, backend.save)
      case Resolved(id) => UpdateStep(post, data, Some(id), upload + [DeleteFile(post.featuredImage)], backend.save)
  }

  /** Creating a post. An image is required; it is uploaded, and a returned
      file is recorded as the featured image. Without a signed-in user the
      run stops there; otherwise the post is created for that user and a
      returned post is navigated to. Throws from the upload and from the
      creation alike end the run with the upload-failure text; a falsy
      upload result ends it silently. */
  function CreateRun(data: FormValues, image: seq<LocalFile>, user: Option<string>, backend: Backend): (r: Run)
    ensures |image| == 0 ==> r == Run([], NoImageError)
    ensures |image| > 0 ==> |r.effects| > 0 && r.effects[0] == UploadFile(image[0])
    ensures |image| > 0 && backend.upload.Threw? ==>
      r == Run([UploadFile(image[0])], UploadFailed(backend.upload.message))
    ensures |image| > 0 && backend.upload.ResolvedNull? ==> r == Run([UploadFile(image[0])], "")
    ensures |image| > 0 && backend.upload.Resolved? && user.None? ==>
      r == Run([UploadFile(image[0])], NoUserError)
    ensures |image| > 0 && backend.upload.Resolved? && user.Some? ==>
      (|r.effects| > 1 &&
       r.effects[1] == CreatePost(PostData(data, Some(backend.upload.id)), user.value) &&
       (backend.save.Threw? ==> r.error == UploadFailed(backend.save.message)) &&
       (backend.save.ResolvedNull? ==> r.error == CreateFailedError) &&
       (backend.save.Resolved? ==> r.error == ""))
  {
    if |image| == 0 then Run([], NoImageError)
    else
      var upload := [UploadFile(image[0])];
      match backend.upload
      case Threw(m) => Run(upload, UploadFailed(m))
      case ResolvedNull => Run(upload, "")
      case Resolved(fileId) =>
        if user.None? then Run(upload, NoUserError)
        else
          var effects := upload + [CreatePost(PostData(data, Some(fileId)), user.value)];
          match backend.save
          case Threw(m) => Run(effects, UploadFailed(m))
          case ResolvedNull => Run(effects, CreateFailedError)
          case Resolved(id) => Run(effects + [Navigate(PostPath(id))], "")
  }

  /** One submission of the form: the edit branch when the form was opened
      on a post, the create branch otherwise. A run makes at most four
      calls, and the error it leaves is empty, one of the fixed messages, or
      built from the message of a call that threw. */
  function SubmitRun(post: Option<Post>, data: FormValues, image: seq<LocalFile>, user: Option<string>, backend: Backend): (r: Run)
    ensures |r.effects| <= 4
    ensures r.error == "" || r.error == NoImageError || r.error == NoUserError || r.error == CreateFailedError ||
      (backend.upload.Threw? &&
       (r.error == UploadFailed(backend.upload.message) || r.error == Or(backend.upload.message, DefaultError))) ||
      (backend.save.Threw? &&
       (r.error == UploadFailed(backend.save.message) || r.error == Or(backend.save.message, DefaultError)))
  {
    if post.Some? then EditRun(post.value, data, image, backend)
    else CreateRun(data, image, user, backend)
  }

  // ---------------------------------------------------------------------
  // The protocol every submission follows
  // ---------------------------------------------------------------------

  /** The first actions of a run: the upload, when an image is picked. */
  lemma UploadStage(image: seq<LocalFile>)
    ensures var upload: seq<Effect> := if |image| > 0 then [UploadFile(image[0])] else [];
      InStageOrder(upload) && (forall i :: 0 <= i < |upload| ==> Stage(upload[i]) == 0) &&
      (Uploaded(upload) <==> |image| > 0) && !Deleted(upload) && !Saved(upload) && !Navigated(upload)
  {
    if |image| > 0 {
      assert Stage([UploadFile(image[0])][0]) == 0;
    }
  }

  /** The protocol of the edit branch. */
  lemma EditProtocol(post: Post, data: FormValues, image: seq<LocalFile>, backend: Backend)
    ensures InStageOrder(EditRun(post, data, image, backend).effects)
    ensures Uploaded(EditRun(post, data, image, backend).effects) <==> |image| > 0
    ensures Deleted(EditRun(post, data, image, backend).effects) <==> |image| > 0 && backend.upload.Resolved?
    ensures Saved(EditRun(post, data, image, backend).effects) <==> !(|image| > 0 && backend.upload.Threw?)
    ensures Navigated(EditRun(post, data, image, backend).effects) <==>
      Saved(EditRun(post, data, image, backend).effects) && backend.save.Resolved?
  {
    var upload: seq<Effect> := if |image| > 0 then [UploadFile(image[0])] else [];
    UploadStage(image);
    if |image| > 0 && backend.upload.Threw? {
      assert EditRun(post, data, image, backend).effects == upload;
    } else {
      var resolved := |image| > 0 && backend.upload.Resolved?;
      var delete := DeleteFile(post.featuredImage);
      var pre := if resolved then upload + [delete] else upload;
      var fileId := if resolved then Some(backend.upload.id) else None;
      if resolved {
        OrderAppend(upload, delete);
        HasAppend(upload, delete, 0);
        HasAppend(upload, delete, 1);
      }
      SaveTail(pre, UpdatePost(post.id, PostData(data, fileId)), backend.save);
      assert EditRun(post, data, image, backend) == UpdateStep(post, data, fileId, pre, backend.save);
    }
  }

  /** The protocol of the create branch. */
  lemma CreateProtocol(data: FormValues, image: seq<LocalFile>, user: Option<string>, backend: Backend)
    ensures InStageOrder(CreateRun(data, image, user, backend).effects)
    ensures Uploaded(CreateRun(data, image, user, backend).effects) <==> |image| > 0
    ensures !Deleted(CreateRun(data, image, user, backend).effects)
    ensures Saved(CreateRun(data, image, user, backend).effects) <==>
      |image| > 0 && backend.upload.Resolved? && user.Some?
    ensures Navigated(CreateRun(data, image, user, backend).effects) <==>
      Saved(CreateRun(data, image, user, backend).effects) && backend.save.Resolved?
  {
    var upload: seq<Effect> := if |image| > 0 then [UploadFile(image[0])] else [];
    UploadStage(image);
    if |image| > 0 && backend.upload.Resolved? && user.Some? {
      var save := CreatePost(PostData(data, Some(backend.upload.id)), user.value);
      SaveTail(upload, save, backend.save);
      if !backend.save.Resolved? {
        assert upload + [save] + [] == upload + [save];
      }
    } else {
      assert CreateRun(data, image, user, backend).effects == upload;
    }
  }

  /** Whatever the outcomes: the actions come in stage order, so each
      happens at most once; the picked image is uploaded exactly when there
      is one; an old image is deleted only when editing, after an upload
      that returned a file; the post is saved exactly when no earlier step
      stopped the run; the page is navigated to exactly when the save
      returned a post, as the last action, to that post's route, and then
      no error is shown; a thrown call always leaves an error. */
  lemma SubmitProtocol(post: Option<Post>, data: FormValues, image: seq<LocalFile>, user: Option<string>, backend: Backend)
    ensures var r := SubmitRun(post, data, image, user, backend);
      InStageOrder(r.effects) &&
      (Uploaded(r.effects) <==> |image| > 0) &&
      (Deleted(r.effects) <==> post.Some? && |image| > 0 && backend.upload.Resolved?)
    ensures var r := SubmitRun(post, data, image, user, backend);
      Saved(r.effects) <==>
        if post.Some? then !(|image| > 0 && backend.upload.Threw?)
        else |image| > 0 && backend.upload.Resolved? && user.Some?
    ensures var r := SubmitRun(post, data, image, user, backend);
      (Navigated(r.effects) <==> Saved(r.effects) && backend.save.Resolved?) &&
      (Navigated(r.effects) ==>
        r.effects[|r.effects| - 1] == Navigate(PostPath(backend.save.id)) && r.error == "")
    ensures var r := SubmitRun(post, data, image, user, backend);
      (Uploaded(r.effects) && backend.upload.Threw? ==> r.error != "") &&
      (Saved(r.effects) && backend.save.Threw? ==> r.error != "")
  {
    if post.Some? {
      EditProtocol(post.value, data, image, backend);
    } else {
      CreateProtocol(data, image, user, backend);
    }
  }
}
