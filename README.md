# PostForm: the post editor of MegaBlog, modelled in Dafny

MegaBlog's `PostForm` component collects a blog post's title, slug, content,
status and featured image. It then creates a new post or updates an
existing one through the Appwrite backend. This project models its three
pieces of logic and proves what they guarantee:

- **The slug transform** (`slug.dfy`, module `Slug`). `slugTransform` works
  in four steps:
  1. trim the surrounding whitespace;
  2. lower-case the string;
  3. replace each maximal run of characters outside `[a-zA-Z0-9\s]` with one
     `-`;
  4. replace each remaining whitespace character with `-`.

  Each step is a function over ASCII characters. The proofs show that a slug
  holds only `a-z`, `0-9` and `-`. They show that the title's letters and
  digits reach the slug lower-cased and in order, and that any other slug
  character is a hyphen. They show that the slug is never longer than the
  trimmed title. Finally, they show that the transform leaves a string as it
  is exactly when that string is canonical: lower-case letters, digits and
  hyphens, with no two hyphens in a row.
- **The transform is not idempotent**, even though it is easy to assume it
  is. `"a  b"` becomes `"a--b"`, and a second pass turns that into `"a-b"`.
  The model follows the code. It proves the counterexample
  (`slug_examples.dfy`), proves idempotence only when the first slug has no
  double hyphen, and proves that a third pass never changes anything.
- **Form state** (`post_form.dfy`, class `Form.PostForm`). The fields start
  from the edited post or from empty values with status `"active"`. A title
  change overwrites the slug with the slug of the new title. Typing into the
  slug field stores the slug of what was typed. Content and status changes
  leave the slug alone, and each method's frame says so.
- **Submission** (`submission.dfy`, module `Submission`, and
  `Form.PostForm.Submit`). Each backend call is replaced by the outcome it
  ends with:
  - it resolves to an object with an id;
  - it resolves to a falsy value;
  - or it throws with a message.

  The signed-in user is an optional id. A run produces an ordered log of
  upload, delete, create or update, and navigate calls, plus the error left
  on screen. The specification function `SubmitRun` is proved to follow the
  handler's protocol. The imperative `Submit` method, which clears the error
  and appends to the log step by step with early returns, is proved equal to
  that function.

Three behaviours of the code as written are modelled exactly and stated in
the contracts:

- In the create branch, an upload that resolves to a falsy value ends the
  submission silently, with no error and no navigation.
- A throw from `createPost` lands in the upload's catch block, so it is
  reported as "File upload failed: …".
- In the edit branch, a falsy update result also ends the submission with
  no error and no navigation.

## Model

| member | source | states |
|---|---|---|
| Slug.ToLower | 01MegaBlog/src/components/post-form/PostForm.jsx:94 | lower-casing one ASCII character leaves no upper-case letter, turns `A-Z` into `a-z`, and leaves every other character unchanged |
| Slug.Trim | 01MegaBlog/src/components/post-form/PostForm.jsx:93 | the trimmed string is the input with only whitespace cut off at both ends: a slice `s[a..b]` of the input, with whitespace before `a` and from `b` on; it neither starts nor ends with whitespace; a string without whitespace is left as it is |
| Slug.Lower | 01MegaBlog/src/components/post-form/PostForm.jsx:94 | lower-casing keeps the length of the string and leaves no upper-case letter: each `A-Z` becomes a letter of `a-z`, and every other character stays in place |
| Slug.RunEnd | 01MegaBlog/src/components/post-form/PostForm.jsx:95 | the run of characters outside `[a-zA-Z\d\s]` that starts at `i` is maximal: every character in it is outside the class, and it ends at the end of the string or at a class character |
| Slug.RunsFrom | 01MegaBlog/src/components/post-form/PostForm.jsx:95 | step 3 on the part of the string from `i` on never lengthens it: a kept character is copied and a whole run outside the class gives one `-` |
| Slug.ReplaceOtherRuns | 01MegaBlog/src/components/post-form/PostForm.jsx:95 | step 3 outputs only hyphens and class characters taken from its input, keeps exactly the input's letters and digits in order, never puts two hyphens side by side, and is no longer than its input |
| Slug.RunsFromChars | 01MegaBlog/src/components/post-form/PostForm.jsx:95 | step 3 outputs only hyphens and class characters taken from its input |
| Slug.RunsFromKept | 01MegaBlog/src/components/post-form/PostForm.jsx:95 | step 3 copies a stretch of class characters unchanged |
| Slug.ReplaceOtherRunsChars | 01MegaBlog/src/components/post-form/PostForm.jsx:95 | after step 3 each character is a class character or a hyphen; no upper-case letter and no whitespace is introduced |
| Slug.ReplaceSpaces | 01MegaBlog/src/components/post-form/PostForm.jsx:96 | step 4 replaces characters one for one: each whitespace character becomes `-`, every other character stays in place, and no whitespace is left |
| Slug.Slugify | 01MegaBlog/src/components/post-form/PostForm.jsx:92-96 | a slug holds only `a-z`, `0-9` and `-`, and is never longer than the trimmed input |
| Slug.SlugTransform | 01MegaBlog/src/components/post-form/PostForm.jsx:90-99 | a string input gives its slug; a missing, null or non-string input gives `""`; the result holds only slug characters |
| Slug.SlugTransformEmpty | 01MegaBlog/src/components/post-form/PostForm.jsx:91-98 | `""`, undefined, null and non-string values all give `""` |
| Slug.AlnumsLower | 01MegaBlog/src/components/post-form/PostForm.jsx:94 | lower-casing keeps the letters and digits in order, each lower-cased |
| Slug.AlnumsRunsFrom | 01MegaBlog/src/components/post-form/PostForm.jsx:95 | step 3 keeps exactly the letters and digits of its input, in order |
| Slug.AlnumsReplaceSpaces | 01MegaBlog/src/components/post-form/PostForm.jsx:96 | step 4 keeps exactly the letters and digits of its input, in order |
| Slug.AlnumsTrim | 01MegaBlog/src/components/post-form/PostForm.jsx:93 | trimming keeps every letter and digit of the input, in order |
| Slug.AlnumsBetweenSpaces | 01MegaBlog/src/components/post-form/PostForm.jsx:93 | cutting whitespace off both ends of a string keeps all its letters and digits |
| Slug.AlnumsDropFront | 01MegaBlog/src/components/post-form/PostForm.jsx:93 | leading whitespace holds no letter or digit |
| Slug.AlnumsDropBack | 01MegaBlog/src/components/post-form/PostForm.jsx:93 | trailing whitespace holds no letter or digit |
| Slug.SlugifyKeepsAlnums | 01MegaBlog/src/components/post-form/PostForm.jsx:92-96 | the slug's letters and digits are those of the input (and of the trimmed input), lower-cased and in the same order; every other slug character is `-` |
| Slug.RunsFromNoDoubleHyphen | 01MegaBlog/src/components/post-form/PostForm.jsx:95 | on any input, step 3 never puts two hyphens side by side: the `--` that a double space leaves in a slug comes from step 4 alone |
| Slug.RunsFromCanonical | 01MegaBlog/src/components/post-form/PostForm.jsx:95 | step 3 leaves a canonical string unchanged |
| Slug.SlugifySpaceFree | 01MegaBlog/src/components/post-form/PostForm.jsx:92-96 | input without whitespace gives a canonical slug |
| Slug.SlugifyCanonical | 01MegaBlog/src/components/post-form/PostForm.jsx:92-96 | a canonical string is its own slug |
| Slug.SlugifyFixpoint | 01MegaBlog/src/components/post-form/PostForm.jsx:92-96 | a string is its own slug if and only if it is canonical: only `a-z0-9-`, with no `--` |
| Slug.FixpointIsCanonical | 01MegaBlog/src/components/post-form/PostForm.jsx:92-96 | a string that is its own slug is canonical |
| Slug.SlugifyIdempotentWhen | 01MegaBlog/src/components/post-form/PostForm.jsx:95-96 | applying the transform twice changes nothing when the first slug has no double hyphen |
| Slug.SlugifyStableAfterTwo | 01MegaBlog/src/components/post-form/PostForm.jsx:95-96 | a third application never changes the slug |
| SlugExamples.SlugifyExample | 01MegaBlog/src/components/post-form/PostForm.jsx:92-96 | `"My First Post!"` gives `"my-first-post-"` |
| SlugExamples.SlugOfDoubleSpace | 01MegaBlog/src/components/post-form/PostForm.jsx:96 | `"a  b"` gives `"a--b"`: each space becomes its own hyphen |
| SlugExamples.SlugOfDoubleHyphen | 01MegaBlog/src/components/post-form/PostForm.jsx:95 | `"a--b"` gives `"a-b"`: a run of hyphens collapses into one |
| SlugExamples.SlugifyNotIdempotent | 01MegaBlog/src/components/post-form/PostForm.jsx:95-96 | a second application can change a slug, so the transform is not idempotent |
| Submission.UploadFailed | 01MegaBlog/src/components/post-form/PostForm.jsx:77 | the upload-failure text ends with the thrown message |
| Submission.PostPath | 01MegaBlog/src/components/post-form/PostForm.jsx:43 | a post's route ends with the post's id |
| Submission.Or | 01MegaBlog/src/components/post-form/PostForm.jsx:85 | a non-empty message is shown as it is; an empty one falls back to the default, so the result is non-empty whenever the fallback is |
| Submission.UpdateStep | 01MegaBlog/src/components/post-form/PostForm.jsx:37-44 | the update call follows the earlier actions; a navigation to the returned post's route follows only a resolved update; a throw leaves the message or the default text; otherwise no error |
| Submission.EditRun | 01MegaBlog/src/components/post-form/PostForm.jsx:30-44 | editing always makes a call. The first action is the upload of the picked image, or the update when no image is picked. A thrown upload stops the run with its message. A resolved upload is followed by the deletion of the old featured image and an update that carries the new file id. A falsy upload is followed by an update without an image id. A throw of the update sets its message or "Error creating post"; otherwise there is no error |
| Submission.CreateRun | 01MegaBlog/src/components/post-form/PostForm.jsx:45-82 | without an image, the run makes no call and shows "Please select an image file". A thrown upload shows "File upload failed: " plus its message. A falsy upload stops the run silently. Without a user, the run stops after the upload with the log-in message. Otherwise the post is created with the uploaded file's id for that user. A null result gives "Failed to create post after file upload", a throw gives the upload-failure text, and success gives no error |
| Submission.SubmitRun | 01MegaBlog/src/components/post-form/PostForm.jsx:25-88 | a submission makes at most four calls; its error is empty, one of the fixed messages, or built from the message of a call that threw |
| Submission.HasAppend | 01MegaBlog/src/components/post-form/PostForm.jsx:25-88 | appending a call to the log adds exactly that call's stage |
| Submission.OrderAppend | 01MegaBlog/src/components/post-form/PostForm.jsx:25-88 | appending a call of a later stage keeps the log in stage order |
| Submission.SaveTail | 01MegaBlog/src/components/post-form/PostForm.jsx:37-44 | after the upload stages, the save and an optional navigation keep the log ordered; the post is saved, and it is navigated to exactly when the save resolved |
| Submission.EditProtocol | 01MegaBlog/src/components/post-form/PostForm.jsx:30-44 | when editing, the calls come in order: upload, delete, update, navigate. The upload happens exactly when an image is picked. The old image is deleted exactly when the upload returned a file. The update happens unless the upload threw. Navigation happens exactly when the update returned a post |
| Submission.CreateProtocol | 01MegaBlog/src/components/post-form/PostForm.jsx:45-82 | when creating, the calls come in order: upload, create, navigate. Nothing is ever deleted. The post is created exactly when an image is picked, the upload returned a file and a user is signed in. Navigation happens exactly when the creation returned a post |
| Submission.SubmitProtocol | 01MegaBlog/src/components/post-form/PostForm.jsx:25-88 | for every submission, each kind of call happens at most once and in stage order. Navigation happens exactly when the save was made and returned a post. It is then the last action, goes to `/post/<returned id>`, and leaves no error. A thrown upload or save always leaves an error |
| Form.Defaults | 01MegaBlog/src/components/post-form/PostForm.jsx:11-16 | with no post, the form starts with `""`, `""`, `""` and `"active"`. With a post, it takes the post's title and content, and its id as the slug. The status is the post's own when that is non-empty and `"active"` when it is empty, so it is never empty |
| Form.PostForm.constructor | 01MegaBlog/src/components/post-form/PostForm.jsx:9-17 | a new form holds the default values, no error and an empty log |
| Form.PostForm.ChangeTitle | 01MegaBlog/src/components/post-form/PostForm.jsx:101-105 | after a title change to `t`, the title is `t` and the slug is the slug of `t`; nothing else changes |
| Form.PostForm.InputSlug | 01MegaBlog/src/components/post-form/PostForm.jsx:126-128 | typing `v` into the slug field stores the slug of `v`; the title and the other fields are unchanged |
| Form.PostForm.ChangeContent | 01MegaBlog/src/components/post-form/PostForm.jsx:102-104 | a content change sets only the content; the slug is unchanged |
| Form.PostForm.ChangeStatus | 01MegaBlog/src/components/post-form/PostForm.jsx:102-104 | a status change sets only the status; the slug is unchanged |
| Form.PostForm.Submit | 01MegaBlog/src/components/post-form/PostForm.jsx:25-88 | a submission clears the error first. It then appends to the log exactly the calls of `SubmitRun` on the current values and leaves exactly its error |
| Form.PostForm.SubmitEdit | 01MegaBlog/src/components/post-form/PostForm.jsx:30-44 | the step-by-step edit branch appends exactly the calls of `EditRun` and leaves its error |
| Form.PostForm.SubmitCreate | 01MegaBlog/src/components/post-form/PostForm.jsx:45-82 | the step-by-step create branch, including its early returns, appends exactly the calls of `CreateRun` and leaves its error |

## Left out

- Characters are classified as ASCII. JavaScript's `trim` and `\s` also match
  Unicode spaces (such as U+00A0 and U+FEFF), and `toLowerCase` maps
  non-ASCII letters, some of them to ASCII (U+212A KELVIN SIGN becomes `k`)
  or to two characters. In the model, every non-ASCII character counts as a
  character outside the class.
- JSX rendering, CSS classes, the `accept` attribute and the image preview
  through `getFilePreview` (PostForm.jsx:111-160) are pure presentation.
- The React hook lifecycle is not modelled: `useState`, `useForm`,
  `useCallback`, and subscribing and unsubscribing the watch. The watch is
  modelled only as the rule it applies on a title change. The `post` prop is
  read once, at construction, as `defaultValues` is.
- The form library's validation is not modelled: the `required` rules,
  `shouldValidate`, and `handleSubmit` calling `submit` only on valid
  fields. Submission is modelled for any field values.
- The Appwrite calls and `navigate` are foreign code. Each call is
  represented by its outcome and by an entry in the effect log. The Redux
  lookup of the user is an optional user id.
- The result of `deleteFile` is not modelled, because the call is not
  awaited. Only the fact that it was called is logged.
- The `console.log` and `console.error` calls are not modelled.
- Asynchrony, overlapping submissions, and a throw from `navigate` itself
  are not modelled. One submission is one sequential run.
- The update and create payloads keep the four text fields and the featured
  image id. The spread also copies the picked `image` file list into the
  payload, and the model leaves that out.
- Thrown errors are modelled as their message string, and an empty string
  stands for a missing message. A thrown value with no `message` at all is
  not modelled. It would make the upload-failure text read
  "File upload failed: undefined".
- The picked files are a sequence, because the file input always yields a
  file list. A missing `image` value, which would make `data.image[0]` throw
  when editing, is not modelled.
- Post fields are strings. An absent field is `""`, which the `||` defaults
  treat in the same way.
- The slug input's `onInput` handler runs before the form library's own
  change handler for the same keystroke. The model keeps only the end
  result, which is the normalised slug.
