/** Worked examples of the slug transform. */
module SlugExamples {
  import opened Slug

  /** The title of the first post: its slug keeps the letters, turns the
      spaces into hyphens and the final "!" into a trailing hyphen. */
  lemma SlugifyExample()
    ensures Slugify("My First Post!") == "my-first-post-"
  {
    ExampleStep1();
    ExampleStep2();
    ExampleStep3();
    ExampleStep4();
  }

  lemma ExampleStep1()
    ensures Trim("My First Post!") == "My First Post!"
  {
  }

  lemma ExampleStep2()
    ensures Lower("My First Post!") == "my first post!"
  {
  }

  lemma ExampleStep3()
    ensures ReplaceOtherRuns("my first post!") == "my first post-"
  {
    ExampleRuns();
  }

  lemma ExampleRuns()
    ensures RunsFrom("my first post!", 0) == "my first post-"
  {
    RunsFromKept("my first post!", 0, 13);
    assert RunsFrom("my first post!", 13) == "-";
  }

  lemma ExampleStep4()
    ensures ReplaceSpaces("my first post-") == "my-first-post-"
  {
  }

  lemma SlugOfDoubleSpace()
    ensures Slugify("a  b") == "a--b"
  {
    assert Trim("a  b") == "a  b";
    assert Lower("a  b") == "a  b";
    DoubleSpaceRuns();
    assert ReplaceSpaces("a  b") == "a--b";
  }

  /** Spaces are class characters: step 3 keeps them. */
  lemma DoubleSpaceRuns()
    ensures ReplaceOtherRuns("a  b") == "a  b"
  {
    RunsFromKept("a  b", 0, 4);
  }

  lemma SlugOfDoubleHyphen()
    ensures Slugify("a--b") == "a-b"
  {
    assert Trim("a--b") == "a--b";
    assert Lower("a--b") == "a--b";
    DoubleHyphenRuns();
    assert ReplaceSpaces("a-b") == "a-b";
  }

  /** The run `--` becomes one hyphen. */
  lemma DoubleHyphenRuns()
    ensures ReplaceOtherRuns("a--b") == "a-b"
  {
    assert RunEnd("a--b", 2) == 3;
    assert RunsFrom("a--b", 3) == "b";
  }

  /** The transform is not idempotent: two spaces give two hyphens, which a
      second application collapses into one. */
  lemma SlugifyNotIdempotent()
    ensures Slugify(Slugify("a  b")) != Slugify("a  b")
  {
    SlugOfDoubleSpace();
    SlugOfDoubleHyphen();
  }
}
